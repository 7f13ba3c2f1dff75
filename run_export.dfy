/**
 * Exporting one run (`export_run`): the run's canonical document stream is
 * driven through the filler and the serializer while the files referenced by
 * resource documents are collected under `(root_in_document, root, unique_id)`.
 *
 * The filler, the run's file listing and the salted root hash are
 * collaborators passed in as functions; `None` from the filler or the file
 * listing stands for the exception it raised. The serializer is modelled by
 * what it is given, the sequence of `(name, doc)` pairs in order, and by the
 * one file it creates: given the start document, it creates
 * `documents/<start uid>` in the destination, exclusively, and raises when
 * that name is already there.
 */
module RunExport {
  import opened Wrappers
  import opened Seqs
  import RootHashing

  /** Document kinds of the canonical stream. */
  datatype Kind = Start | Descriptor | Event | EventPage | Resource | Datum | DatumPage | Stop

  /** `EXTERNAL_RELATED_DOCS`: the kinds dropped once external data is filled in. */
  predicate ExternalRelated(k: Kind) {
    k == Resource || k == Datum || k == DatumPage
  }

  /** A document; only its `root` field is interpreted here. */
  type Doc = map<string, string>

  datatype Entry = Entry(kind: Kind, doc: Doc)

  /** The `external` argument: None (list the files), 'fill' or 'ignore'. */
  datatype External = ListFiles | Fill | Ignore

  /** The key external files are recorded under. */
  datatype FileKey = FileKey(rootInDocument: string, root: string, uniqueId: string)

  datatype RunError = FillerRaised | MissingRoot | FileListRaised | SerializerRaised

  datatype Collaborators = Collaborators(
    filler: Entry -> Option<Entry>,        // event_model.Filler, called as filler(name, doc)
    fileList: Doc -> Option<seq<string>>,  // run.get_file_list(doc)
    rootHash: string -> string,            // root_hash with the batch salt bound
    existing: set<string>)                 // the names the destination already holds

  datatype Options = Options(external: External, noDocuments: bool, rootMap: map<string, string>)

  /**
   * `rootHash` is `functools.partial(root_hash, salt)`: every root is hashed
   * as the text it is, followed by the batch's salt.
   */
  ghost predicate HashesWithSalt(c: Collaborators, md5: seq<RootHashing.byte> -> string, salt: seq<RootHashing.byte>) {
    forall root :: c.rootHash(root) == RootHashing.RootHash(md5, salt, RootHashing.StrRoot(root))
  }

  /** What the serializer was given, the files map returned, and the names the serializer created. */
  datatype RunOutput = RunOutput(serialized: seq<Entry>, files: map<FileKey, set<string>>, created: set<string>)

  /**
   * The name `file_prefix="documents/{start[uid]}"` gives the documents of the
   * run with this start uid (the serializer's fixed extension left off).
   */
  function DocumentsName(uid: string): string {
    "documents/" + uid
  }

  /** The key of a resource: the hash is of the recorded root, not the remapped one. */
  function KeyOf(doc: Doc, o: Options, c: Collaborators): FileKey
    requires "root" in doc
  {
    var recorded := doc["root"];
    var root := GetOr(o.rootMap, recorded, recorded);
    FileKey(if o.noDocuments then recorded else root, root, c.rootHash(recorded))
  }

  /** A copy of the document with `root` replaced. */
  function WithRoot(e: Entry, uniqueId: string): Entry {
    Entry(e.kind, e.doc["root" := uniqueId])
  }

  /**
   * `serializer(name, doc)`, skipped under `no_documents`. A start document
   * makes the serializer create the run's documents file; formatting the
   * prefix raises without a `uid`, and the exclusive create raises when the
   * name was already created.
   */
  function Serialize(acc: RunOutput, e: Entry, o: Options, c: Collaborators): Result<RunOutput, RunError> {
    if o.noDocuments then Success(acc)
    else if e.kind != Start then Success(acc.(serialized := acc.serialized + [e]))
    else if "uid" !in e.doc then Failure(SerializerRaised)
    else
      var name := DocumentsName(e.doc["uid"]);
      if name in c.existing || name in acc.created then Failure(SerializerRaised)
      else Success(RunOutput(acc.serialized + [e], acc.files, acc.created + {name}))
  }

  /** `files[key].update(list)` on a defaultdict of sets. */
  function AddFiles(files: map<FileKey, set<string>>, k: FileKey, list: seq<string>): map<FileKey, set<string>> {
    files[k := GetOr(files, k, {}) + Elems(list)]
  }

  /** One turn of the loop over the stream. */
  function Step(acc: RunOutput, e: Entry, o: Options, c: Collaborators): Result<RunOutput, RunError> {
    if o.external == Fill then
      match c.filler(e)
      case None => Failure(FillerRaised)
      case Some(f) => if ExternalRelated(f.kind) then Success(acc) else Serialize(acc, f, o, c)
    else if e.kind == Resource then
      if "root" !in e.doc then Failure(MissingRoot)
      else
        var key := KeyOf(e.doc, o, c);
        if o.external == ListFiles then
          match c.fileList(e.doc)
          case None => Failure(FileListRaised)
          case Some(list) =>
            Serialize(acc.(files := AddFiles(acc.files, key, list)), WithRoot(e, key.uniqueId), o, c)
        else Serialize(acc, WithRoot(e, key.uniqueId), o, c)
    else Serialize(acc, e, o, c)
  }

  /** The state after the loop has consumed `stream`; the first exception ends it. */
  function ExportRunSpec(stream: seq<Entry>, o: Options, c: Collaborators): Result<RunOutput, RunError>
    decreases |stream|
  {
    if stream == [] then Success(RunOutput([], map[], {}))
    else
      match ExportRunSpec(stream[..|stream| - 1], o, c)
      case Failure(err) => Failure(err)
      case Success(acc) => Step(acc, stream[|stream| - 1], o, c)
  }

  lemma {:induction false} FailurePersists(stream: seq<Entry>, n: nat, o: Options, c: Collaborators)
    requires n <= |stream|
    requires ExportRunSpec(stream[..n], o, c).Failure?
    ensures ExportRunSpec(stream, o, c) == ExportRunSpec(stream[..n], o, c)
    decreases |stream|
  {
    if n < |stream| {
      var init := stream[..|stream| - 1];
      assert init[..n] == stream[..n];
      FailurePersists(init, n, o, c);
    } else {
      assert stream[..n] == stream;
    }
  }

  /** `export_run`: the loop over the stream, returning early on an exception. */
  method ExportRun(stream: seq<Entry>, o: Options, c: Collaborators) returns (r: Result<RunOutput, RunError>)
    ensures r == ExportRunSpec(stream, o, c)
  {
    var serialized: seq<Entry> := [];
    var files: map<FileKey, set<string>> := map[];
    var created: set<string> := {};
    var i := 0;
    while i < |stream|
      invariant 0 <= i <= |stream|
      invariant ExportRunSpec(stream[..i], o, c) == Success(RunOutput(serialized, files, created))
    {
      var e := stream[i];
      assert stream[..i + 1][..i] == stream[..i] && stream[..i + 1][i] == e;
      var done := false;
      if o.external == Fill {
        var filled := c.filler(e);
        if filled.None? {
          FailurePersists(stream, i + 1, o, c);
          return Failure(FillerRaised);
        }
        e := filled.value;
        done := ExternalRelated(e.kind);
      } else if e.kind == Resource {
        if "root" !in e.doc {
          FailurePersists(stream, i + 1, o, c);
          return Failure(MissingRoot);
        }
        var recorded := e.doc["root"];
        var root := if recorded in o.rootMap then o.rootMap[recorded] else recorded;
        var uniqueId := c.rootHash(recorded);
        if o.external == ListFiles {
          var rootInDocument := if o.noDocuments then recorded else root;
          var key := FileKey(rootInDocument, root, uniqueId);
          var listed := c.fileList(e.doc);
          if listed.None? {
            FailurePersists(stream, i + 1, o, c);
            return Failure(FileListRaised);
          }
          var known := if key in files then files[key] else {};
          files := files[key := known + Elems(listed.value)];
        }
        if !o.noDocuments {
          e := Entry(e.kind, e.doc["root" := uniqueId]);
        }
      }
      if !done && !o.noDocuments {
        if e.kind == Start {
          if "uid" !in e.doc || DocumentsName(e.doc["uid"]) in c.existing || DocumentsName(e.doc["uid"]) in created {
            FailurePersists(stream, i + 1, o, c);
            return Failure(SerializerRaised);
          }
          created := created + {DocumentsName(e.doc["uid"])};
        }
        serialized := serialized + [e];
      }
      i := i + 1;
    }
    assert stream[..|stream|] == stream;
    return Success(RunOutput(serialized, files, created));
  }

  // ---------------------------------------------------------------------------
  // What the loop computes, stated without the loop.

  /** Whether handling `e` raises before anything reaches the serializer. */
  predicate Raises(e: Entry, o: Options, c: Collaborators) {
    if o.external == Fill then c.filler(e).None?
    else e.kind == Resource && ("root" !in e.doc || (o.external == ListFiles && c.fileList(e.doc).None?))
  }

  /** The exception handling `e` raises. */
  function RaisedBy(e: Entry, o: Options, c: Collaborators): RunError {
    if o.external == Fill then FillerRaised
    else if "root" !in e.doc then MissingRoot
    else FileListRaised
  }

  /** `e` reaches the serializer as a start document. */
  predicate StartsRun(e: Entry, o: Options, c: Collaborators) {
    !o.noDocuments && |PassOne(e, o, c)| == 1 && PassOne(e, o, c)[0].kind == Start
  }

  /** The serializer refuses `e`'s start document, the names in `before` having been created by this run. */
  predicate Refused(e: Entry, before: set<string>, o: Options, c: Collaborators) {
    StartsRun(e, o, c) &&
    var f := PassOne(e, o, c)[0];
    "uid" !in f.doc || DocumentsName(f.doc["uid"]) in c.existing || DocumentsName(f.doc["uid"]) in before
  }

  /** The name the serializer creates when it accepts `e`. */
  function CreatedBy(e: Entry, o: Options, c: Collaborators): set<string> {
    if StartsRun(e, o, c) && "uid" in PassOne(e, o, c)[0].doc then {DocumentsName(PassOne(e, o, c)[0].doc["uid"])} else {}
  }

  /** The names the serializer creates for a stream it accepts. */
  function CreatedIn(stream: seq<Entry>, o: Options, c: Collaborators): set<string>
    decreases |stream|
  {
    if stream == [] then {} else CreatedIn(stream[..|stream| - 1], o, c) + CreatedBy(stream[|stream| - 1], o, c)
  }

  /**
   * A stream whose only start document is its first creates, when documents
   * are written outside fill mode, exactly that start's documents name.
   */
  lemma {:induction false} CreatedInOneStart(stream: seq<Entry>, o: Options, c: Collaborators)
    requires !o.noDocuments && o.external != Fill
    requires |stream| > 0 && stream[0].kind == Start && "uid" in stream[0].doc
    requires forall i :: 1 <= i < |stream| ==> stream[i].kind != Start
    ensures CreatedIn(stream, o, c) == {DocumentsName(stream[0].doc["uid"])}
    decreases |stream|
  {
    var n := |stream| - 1;
    if n == 0 {
      assert stream[..0] == [];
      assert PassOne(stream[0], o, c) == [stream[0]];
    } else {
      var e := stream[n];
      assert stream[..n][0] == stream[0];
      CreatedInOneStart(stream[..n], o, c);
      assert e.kind != Start;
      assert PassOne(e, o, c)[0].kind == e.kind;
      assert CreatedBy(e, o, c) == {};
    }
  }

  /** Document `i` raises: on its own, or in the serializer, given the documents before it. */
  predicate RaisesAt(stream: seq<Entry>, i: int, o: Options, c: Collaborators)
    requires 0 <= i < |stream|
  {
    Raises(stream[i], o, c) || Refused(stream[i], CreatedIn(stream[..i], o, c), o, c)
  }

  function RaisedAt(stream: seq<Entry>, i: int, o: Options, c: Collaborators): RunError
    requires 0 <= i < |stream|
  {
    if Raises(stream[i], o, c) then RaisedBy(stream[i], o, c) else SerializerRaised
  }

  /** What one turn of the loop does, in terms of the closed forms above. */
  lemma StepEffect(acc: RunOutput, e: Entry, o: Options, c: Collaborators)
    ensures Step(acc, e, o, c).Failure? <==> Raises(e, o, c) || Refused(e, acc.created, o, c)
    ensures Raises(e, o, c) ==> Step(acc, e, o, c) == Failure(RaisedBy(e, o, c))
    ensures !Raises(e, o, c) && Refused(e, acc.created, o, c) ==> Step(acc, e, o, c) == Failure(SerializerRaised)
    ensures Step(acc, e, o, c).Success? ==>
      Step(acc, e, o, c).value.serialized == acc.serialized + (if o.noDocuments then [] else PassOne(e, o, c)) &&
      Step(acc, e, o, c).value.created == acc.created + CreatedBy(e, o, c)
  {
  }

  /** Whether a document raises depends only on the documents before it. */
  lemma RaisesAtPrefix(stream: seq<Entry>, n: nat, o: Options, c: Collaborators)
    requires n <= |stream|
    ensures forall i :: 0 <= i < n ==>
      (RaisesAt(stream[..n], i, o, c) <==> RaisesAt(stream, i, o, c)) &&
      RaisedAt(stream[..n], i, o, c) == RaisedAt(stream, i, o, c)
  {
    forall i | 0 <= i < n
      ensures (RaisesAt(stream[..n], i, o, c) <==> RaisesAt(stream, i, o, c)) &&
        RaisedAt(stream[..n], i, o, c) == RaisedAt(stream, i, o, c)
    {
      assert stream[..n][..i] == stream[..i];
      assert stream[..n][i] == stream[i];
    }
  }

  /** A run that succeeds has created the documents name of each start document it serialized. */
  lemma {:induction false} CreatedNames(stream: seq<Entry>, o: Options, c: Collaborators)
    requires ExportRunSpec(stream, o, c).Success?
    ensures ExportRunSpec(stream, o, c).value.created == CreatedIn(stream, o, c)
    decreases |stream|
  {
    if stream != [] {
      var n := |stream| - 1;
      assert ExportRunSpec(stream[..n], o, c).Success?;
      CreatedNames(stream[..n], o, c);
      StepEffect(ExportRunSpec(stream[..n], o, c).value, stream[n], o, c);
    }
  }

  /**
   * A run fails exactly when one of its documents raises, and then with the
   * exception of the first document that does.
   */
  lemma {:induction false} ExportRunFailsIff(stream: seq<Entry>, o: Options, c: Collaborators)
    ensures ExportRunSpec(stream, o, c).Failure? <==> exists i :: 0 <= i < |stream| && RaisesAt(stream, i, o, c)
    ensures forall i ::
      (0 <= i < |stream| && RaisesAt(stream, i, o, c) && (forall j :: 0 <= j < i ==> !RaisesAt(stream, j, o, c))) ==>
        ExportRunSpec(stream, o, c) == Failure(RaisedAt(stream, i, o, c))
    decreases |stream|
  {
    if stream != [] {
      var n := |stream| - 1;
      var init := stream[..n];
      ExportRunFailsIff(init, o, c);
      RaisesAtPrefix(stream, n, o, c);
      match ExportRunSpec(init, o, c)
      case Failure(_) =>
      case Success(acc) =>
        CreatedNames(init, o, c);
        StepEffect(acc, stream[n], o, c);
        assert RaisesAt(stream, n, o, c) <==> Raises(stream[n], o, c) || Refused(stream[n], acc.created, o, c);
    }
  }

  /**
   * A run whose start document comes first and names a run whose documents
   * the destination already holds fails in the serializer: the second export
   * of a run into one pack is refused.
   */
  lemma RepeatedRunRefused(stream: seq<Entry>, o: Options, c: Collaborators)
    requires o.external != Fill && !o.noDocuments
    requires |stream| > 0 && stream[0].kind == Start && "uid" in stream[0].doc
    requires DocumentsName(stream[0].doc["uid"]) in c.existing
    ensures ExportRunSpec(stream, o, c) == Failure(SerializerRaised)
  {
    ExportRunFailsIff(stream, o, c);
    assert RaisesAt(stream, 0, o, c);
  }

  /** What the serializer is given per input document, when nothing raises. */
  function PassOne(e: Entry, o: Options, c: Collaborators): seq<Entry> {
    if o.external == Fill then
      match c.filler(e)
      case None => []
      case Some(f) => if ExternalRelated(f.kind) then [] else [f]
    else if e.kind == Resource && "root" in e.doc then [WithRoot(e, c.rootHash(e.doc["root"]))]
    else [e]
  }

  function PassedOn(stream: seq<Entry>, o: Options, c: Collaborators): seq<Entry> {
    if stream == [] then [] else PassOne(stream[0], o, c) + PassedOn(stream[1..], o, c)
  }

  lemma {:induction false} PassedOnAppend(a: seq<Entry>, b: seq<Entry>, o: Options, c: Collaborators)
    ensures PassedOn(a + b, o, c) == PassedOn(a, o, c) + PassedOn(b, o, c)
  {
    if a == [] {
      assert a + b == b;
    } else {
      assert (a + b)[1..] == a[1..] + b;
      PassedOnAppend(a[1..], b, o, c);
    }
  }

  /**
   * The serializer is given nothing under `no_documents`, and otherwise each
   * document's contribution in stream order.
   */
  lemma {:induction false} SerializedIsPassedOn(stream: seq<Entry>, o: Options, c: Collaborators)
    requires ExportRunSpec(stream, o, c).Success?
    ensures ExportRunSpec(stream, o, c).value.serialized == if o.noDocuments then [] else PassedOn(stream, o, c)
    decreases |stream|
  {
    if stream != [] {
      var init := stream[..|stream| - 1];
      var last := stream[|stream| - 1];
      SerializedIsPassedOn(init, o, c);
      StepEffect(ExportRunSpec(init, o, c).value, last, o, c);
      assert stream == init + [last];
      PassedOnAppend(init, [last], o, c);
      assert PassedOn([last], o, c) == PassOne(last, o, c);
    }
  }

  /**
   * With `external='fill'` the serializer is given exactly the filled
   * documents whose kind is not resource, datum or datum_page.
   */
  lemma {:induction false} PassedOnFilled(stream: seq<Entry>, o: Options, c: Collaborators, x: Entry)
    requires o.external == Fill
    ensures x in PassedOn(stream, o, c) <==>
      !ExternalRelated(x.kind) && exists i :: 0 <= i < |stream| && c.filler(stream[i]) == Some(x)
    decreases |stream|
  {
    if stream != [] {
      PassedOnFilled(stream[1..], o, c, x);
      if exists i :: 0 <= i < |stream[1..]| && c.filler(stream[1..][i]) == Some(x) {
        var i :| 0 <= i < |stream[1..]| && c.filler(stream[1..][i]) == Some(x);
        assert c.filler(stream[i + 1]) == Some(x);
      }
      if exists i :: 0 <= i < |stream| && c.filler(stream[i]) == Some(x) {
        var i :| 0 <= i < |stream| && c.filler(stream[i]) == Some(x);
        if i > 0 { assert c.filler(stream[1..][i - 1]) == Some(x); }
      }
    }
  }

  /** Fill mode: no resource, datum or datum_page reaches the serializer; every other filled document does. */
  lemma FillModeSerialized(stream: seq<Entry>, o: Options, c: Collaborators)
    requires o.external == Fill
    requires ExportRunSpec(stream, o, c).Success?
    ensures forall x :: x in ExportRunSpec(stream, o, c).value.serialized ==> !ExternalRelated(x.kind)
    ensures !o.noDocuments ==>
      forall i, x :: (0 <= i < |stream| && c.filler(stream[i]) == Some(x) && !ExternalRelated(x.kind)) ==>
        x in ExportRunSpec(stream, o, c).value.serialized
  {
    SerializedIsPassedOn(stream, o, c);
    forall x | x in ExportRunSpec(stream, o, c).value.serialized
      ensures !ExternalRelated(x.kind)
    {
      PassedOnFilled(stream, o, c, x);
    }
    if !o.noDocuments {
      forall i, x | 0 <= i < |stream| && c.filler(stream[i]) == Some(x) && !ExternalRelated(x.kind)
        ensures x in ExportRunSpec(stream, o, c).value.serialized
      {
        PassedOnFilled(stream, o, c, x);
      }
    }
  }

  /** Outside fill mode every document is passed on, one for one, only resources rewritten. */
  lemma {:induction false} PassedOnOutsideFill(stream: seq<Entry>, o: Options, c: Collaborators)
    requires o.external != Fill
    ensures |PassedOn(stream, o, c)| == |stream|
    ensures forall i :: 0 <= i < |stream| ==> PassedOn(stream, o, c)[i] == PassOne(stream[i], o, c)[0]
    decreases |stream|
  {
    if stream != [] {
      PassedOnOutsideFill(stream[1..], o, c);
      var p := PassedOn(stream, o, c);
      assert forall i :: 1 <= i < |stream| ==> p[i] == PassedOn(stream[1..], o, c)[i - 1];
    }
  }

  /**
   * Outside fill mode and with documents written, the serializer gets the
   * stream with each resource's `root` replaced by the hash of its recorded
   * root and nothing else changed; every other document goes through as is.
   */
  lemma ResourceRootRewritten(stream: seq<Entry>, o: Options, c: Collaborators)
    requires o.external != Fill && !o.noDocuments
    requires ExportRunSpec(stream, o, c).Success?
    ensures |ExportRunSpec(stream, o, c).value.serialized| == |stream|
    ensures forall i :: 0 <= i < |stream| ==>
      var e, out := stream[i], ExportRunSpec(stream, o, c).value.serialized[i];
      out.kind == e.kind &&
      (e.kind != Resource ==> out == e) &&
      (e.kind == Resource ==>
        "root" in e.doc && out.doc.Keys == e.doc.Keys && out.doc["root"] == c.rootHash(e.doc["root"]) &&
        forall k :: k in e.doc && k != "root" ==> out.doc[k] == e.doc[k])
  {
    SerializedIsPassedOn(stream, o, c);
    PassedOnOutsideFill(stream, o, c);
    ExportRunFailsIff(stream, o, c);
    forall i | 0 <= i < |stream| && stream[i].kind == Resource
      ensures "root" in stream[i].doc
    {
      assert !RaisesAt(stream, i, o, c);
    }
  }

  /** `e` is a resource whose files go under key `k`. */
  predicate RecordedUnder(e: Entry, k: FileKey, o: Options, c: Collaborators) {
    e.kind == Resource && "root" in e.doc &&
    var r := e.doc["root"];
    var root := if r in o.rootMap then o.rootMap[r] else r;
    k == FileKey(if o.noDocuments then r else root, root, c.rootHash(r))
  }

  /** `p` is among the files listed for `e`. */
  predicate Lists(e: Entry, p: string, c: Collaborators) {
    c.fileList(e.doc).Some? && p in c.fileList(e.doc).value
  }

  /**
   * With `external=None` the files map has a key for each resource,
   * `(root_in_document, root_map.get(r, r), hash(r))` for its recorded root
   * `r`, and under it the union of the file lists of the resources with that key.
   */
  lemma {:induction false} FilesRecorded(stream: seq<Entry>, o: Options, c: Collaborators)
    requires o.external == ListFiles
    requires ExportRunSpec(stream, o, c).Success?
    ensures forall k :: k in ExportRunSpec(stream, o, c).value.files <==>
      exists i :: 0 <= i < |stream| && RecordedUnder(stream[i], k, o, c)
    ensures forall k, p :: k in ExportRunSpec(stream, o, c).value.files ==>
      (p in ExportRunSpec(stream, o, c).value.files[k] <==>
        exists i :: 0 <= i < |stream| && RecordedUnder(stream[i], k, o, c) && Lists(stream[i], p, c))
    decreases |stream|
  {
    if stream != [] {
      var init := stream[..|stream| - 1];
      var last := stream[|stream| - 1];
      assert ExportRunSpec(init, o, c).Success?;
      FilesRecorded(init, o, c);
      assert forall i :: 0 <= i < |init| ==> init[i] == stream[i];
      var before := ExportRunSpec(init, o, c).value.files;
      var after := ExportRunSpec(stream, o, c).value.files;
      forall k
        ensures k in after <==> exists i :: 0 <= i < |stream| && RecordedUnder(stream[i], k, o, c)
        ensures k in after ==> forall p :: p in after[k] <==>
          exists i :: 0 <= i < |stream| && RecordedUnder(stream[i], k, o, c) && Lists(stream[i], p, c)
      {
        if RecordedUnder(last, k, o, c) {
          assert KeyOf(last.doc, o, c) == k;
        } else if last.kind == Resource {
          assert KeyOf(last.doc, o, c) != k;
        }
        forall p ensures k in after ==> (p in after[k] <==>
          exists i :: 0 <= i < |stream| && RecordedUnder(stream[i], k, o, c) && Lists(stream[i], p, c))
        {
          if k in after && p in after[k] && !RecordedUnder(last, k, o, c) {
            assert p in before[k];
          }
        }
      }
    }
  }

  /** With `external` set to 'fill' or 'ignore' the files map is empty. */
  lemma {:induction false} NoFilesUnlessListing(stream: seq<Entry>, o: Options, c: Collaborators)
    requires o.external != ListFiles
    requires ExportRunSpec(stream, o, c).Success?
    ensures ExportRunSpec(stream, o, c).value.files == map[]
    decreases |stream|
  {
    if stream != [] {
      NoFilesUnlessListing(stream[..|stream| - 1], o, c);
    }
  }

  /**
   * A start, one resource with root "/data/det1" listing two files, and a
   * stop, no root_map, documents written: one key, both files, the
   * resource's root rewritten to the hash of "/data/det1", and the run's
   * documents name created.
   */
  lemma SingleResourceScenario(c: Collaborators, uid: string, stop: Entry)
    requires stop.kind == Stop
    requires DocumentsName(uid) !in c.existing
    requires c.fileList(map["root" := "/data/det1"]) == Some(["/data/det1/a.h5", "/data/det1/b.h5"])
    ensures ExportRunSpec([Entry(Start, map["uid" := uid]), Entry(Resource, map["root" := "/data/det1"]), stop],
                          Options(ListFiles, false, map[]), c) ==
      Success(RunOutput(
        [Entry(Start, map["uid" := uid]), Entry(Resource, map["root" := c.rootHash("/data/det1")]), stop],
        map[FileKey("/data/det1", "/data/det1", c.rootHash("/data/det1")) := {"/data/det1/a.h5", "/data/det1/b.h5"}],
        {DocumentsName(uid)}))
  {
    var o := Options(ListFiles, false, map[]);
    var start := Entry(Start, map["uid" := uid]);
    var res := Entry(Resource, map["root" := "/data/det1"]);
    var h := c.rootHash("/data/det1");
    var key := FileKey("/data/det1", "/data/det1", h);
    var s := [start, res, stop];
    var listed := ["/data/det1/a.h5", "/data/det1/b.h5"];
    var names := {DocumentsName(uid)};
    var s1 := [start];
    assert s1[..|s1| - 1] == [] && s1[|s1| - 1] == start;
    var acc0 := RunOutput([], map[], {});
    assert ExportRunSpec([], o, c) == Success(acc0);
    assert start.doc["uid"] == uid && DocumentsName(uid) !in acc0.created;
    assert acc0.serialized + [start] == [start] && {} + names == names;
    assert Step(acc0, start, o, c) == Serialize(acc0, start, o, c);
    assert ExportRunSpec(s1, o, c) == Success(RunOutput([start], map[], names));
    var s2 := [start, res];
    assert s2[..|s2| - 1] == s1 && s2[|s2| - 1] == res;
    assert KeyOf(res.doc, o, c) == key;
    assert WithRoot(res, h) == Entry(Resource, map["root" := h]);
    assert Elems(listed) == {"/data/det1/a.h5", "/data/det1/b.h5"};
    var empty: map<FileKey, set<string>> := map[];
    var files := map[key := {"/data/det1/a.h5", "/data/det1/b.h5"}];
    assert GetOr(empty, key, {}) + Elems(listed) == {"/data/det1/a.h5", "/data/det1/b.h5"};
    assert AddFiles(empty, key, listed) == files;
    var acc1 := RunOutput([start], map[], names);
    assert Step(acc1, res, o, c) == Serialize(acc1.(files := AddFiles(acc1.files, key, listed)), WithRoot(res, h), o, c);
    assert [start] + [WithRoot(res, h)] == [start, Entry(Resource, map["root" := h])];
    assert Serialize(acc1.(files := files), WithRoot(res, h), o, c) ==
      Success(RunOutput([start, Entry(Resource, map["root" := h])], files, names));
    assert ExportRunSpec(s2, o, c) == Success(RunOutput([start, Entry(Resource, map["root" := h])], files, names));
    assert s[..|s| - 1] == s2 && s[|s| - 1] == stop;
    var acc2 := RunOutput([start, Entry(Resource, map["root" := h])], files, names);
    assert acc2.serialized + [stop] == [start, Entry(Resource, map["root" := h]), stop];
    assert Step(acc2, stop, o, c) == Serialize(acc2, stop, o, c);
    assert Step(acc2, stop, o, c) == Success(RunOutput([start, Entry(Resource, map["root" := h]), stop], files, names));
  }

  /**
   * The same run with the hash bound to a salt: the unique id and the
   * rewritten root are the digest of "/data/det1" followed by the salt.
   */
  lemma SaltedSingleResourceScenario(c: Collaborators, md5: seq<RootHashing.byte> -> string,
                                     salt: seq<RootHashing.byte>, uid: string, stop: Entry)
    requires HashesWithSalt(c, md5, salt)
    requires stop.kind == Stop
    requires DocumentsName(uid) !in c.existing
    requires c.fileList(map["root" := "/data/det1"]) == Some(["/data/det1/a.h5", "/data/det1/b.h5"])
    ensures var h := md5(RootHashing.Utf8("/data/det1") + salt);
      ExportRunSpec([Entry(Start, map["uid" := uid]), Entry(Resource, map["root" := "/data/det1"]), stop],
                    Options(ListFiles, false, map[]), c) ==
      Success(RunOutput(
        [Entry(Start, map["uid" := uid]), Entry(Resource, map["root" := h]), stop],
        map[FileKey("/data/det1", "/data/det1", h) := {"/data/det1/a.h5", "/data/det1/b.h5"}],
        {DocumentsName(uid)}))
  {
    SingleResourceScenario(c, uid, stop);
    assert c.rootHash("/data/det1") == RootHashing.RootHash(md5, salt, RootHashing.StrRoot("/data/det1"));
  }
}
