/**
 * The text of the manifests a pack holds: one external-files manifest per
 * root (`write_external_files_manifest`) and the documents manifest
 * (`write_documents_manifest`).
 */
module Manifests {
  import opened Wrappers
  import opened Seqs
  import opened Text
  import opened Paths

  /** `external_files_manifest_{unique_id}.txt`. */
  function ExternalManifestName(uniqueId: string): string {
    "external_files_manifest_" + uniqueId + ".txt"
  }

  /** Distinct roots get distinct manifest names, so exclusive creation only fails on a repeated unique id. */
  lemma ExternalManifestNameInjective(a: string, b: string)
    requires ExternalManifestName(a) == ExternalManifestName(b)
    ensures a == b
  {
    var prefix := "external_files_manifest_";
    var na, nb := ExternalManifestName(a), ExternalManifestName(b);
    assert |a| == |b|;
    assert a == na[|prefix|..|prefix| + |a|];
    assert b == nb[|prefix|..|prefix| + |b|];
  }

  /** `"\n".join(sorted(str(f) for f in set(files)))`. */
  function ExternalManifestText(files: seq<string>): string {
    JoinWith(SortedUnique(files), '\n')
  }

  /**
   * Read back line by line, a manifest lists each file once, in sorted
   * order, and nothing else.
   */
  lemma ExternalManifestLines(files: seq<string>)
    requires files != []
    requires forall i :: 0 <= i < |files| ==> '\n' !in files[i]
    ensures Split(ExternalManifestText(files), '\n') == SortedUnique(files)
    ensures StrictlySorted(Split(ExternalManifestText(files), '\n'))
    ensures forall f :: f in Split(ExternalManifestText(files), '\n') <==> f in files
  {
    var lines := SortedUnique(files);
    assert lines != [] by {
      assert files[0] in Elems(files);
    }
    forall i | 0 <= i < |lines| ensures '\n' !in lines[i] {
      assert lines[i] in Elems(files);
    }
    SplitJoin(lines, '\n');
  }

  /** The manifest depends only on the set of files: order and repetition do not matter. */
  lemma ExternalManifestOrderIndependent(a: seq<string>, b: seq<string>)
    requires forall f :: f in a <==> f in b
    ensures ExternalManifestText(a) == ExternalManifestText(b)
  {
    assert Elems(a) == Elems(b);
    SortedUniqueOrderIndependent(a, b);
  }

  /** An empty file set gives an empty manifest. */
  lemma ExternalManifestEmpty()
    ensures ExternalManifestText([]) == ""
  {
  }

  /** The line written for one artifact: its path relative to the absolute pack directory. */
  function DocumentsManifestLine(cwd: PurePath, directory: string, artifact: string): Option<string> {
    match RelativeTo(Parse(artifact), Absolute(cwd, Parse(directory)))
    case None => None
    case Some(rel) => Some(ToStr(rel) + "\n")
  }

  /**
   * The lines of `documents_manifest.txt`, in the order of the artifacts; the
   * first artifact outside the directory makes `relative_to` raise.
   */
  function DocumentsManifest(cwd: PurePath, directory: string, artifacts: seq<string>): Result<seq<string>, string> {
    if artifacts == [] then Success([])
    else
      match DocumentsManifestLine(cwd, directory, artifacts[0])
      case None => Failure(artifacts[0])
      case Some(line) =>
        match DocumentsManifest(cwd, directory, artifacts[1..])
        case Failure(a) => Failure(a)
        case Success(rest) => Success([line] + rest)
  }

  /** Writing the documents manifest fails exactly when some artifact is not under the pack directory. */
  lemma {:induction false} DocumentsManifestFailsIff(cwd: PurePath, directory: string, artifacts: seq<string>)
    ensures DocumentsManifest(cwd, directory, artifacts).Failure? <==>
      exists i :: 0 <= i < |artifacts| && DocumentsManifestLine(cwd, directory, artifacts[i]).None?
  {
    if artifacts != [] {
      DocumentsManifestFailsIff(cwd, directory, artifacts[1..]);
      assert forall i :: 1 <= i < |artifacts| ==> artifacts[i] == artifacts[1..][i - 1];
    }
  }

  /** The documents manifest keeps the artifacts' order, one line each. */
  lemma {:induction false} DocumentsManifestLines(cwd: PurePath, directory: string, artifacts: seq<string>)
    requires DocumentsManifest(cwd, directory, artifacts).Success?
    ensures |DocumentsManifest(cwd, directory, artifacts).value| == |artifacts|
    ensures forall i :: 0 <= i < |artifacts| ==>
      Some(DocumentsManifest(cwd, directory, artifacts).value[i]) == DocumentsManifestLine(cwd, directory, artifacts[i])
  {
    if artifacts != [] {
      var line := DocumentsManifestLine(cwd, directory, artifacts[0]).value;
      var rest := DocumentsManifest(cwd, directory, artifacts[1..]).value;
      DocumentsManifestLines(cwd, directory, artifacts[1..]);
      assert DocumentsManifest(cwd, directory, artifacts).value == [line] + rest;
      assert forall i :: 1 <= i < |artifacts| ==> artifacts[i] == artifacts[1..][i - 1];
    }
  }

  /** Each line names the artifact's place inside the directory: joined back, it is the artifact again. */
  lemma DocumentsManifestLineRejoins(cwd: PurePath, directory: string, artifact: string)
    requires DocumentsManifestLine(cwd, directory, artifact).Some?
    ensures var line := DocumentsManifestLine(cwd, directory, artifact).value;
      |line| >= 1 && line[|line| - 1] == '\n' &&
      Join(Absolute(cwd, Parse(directory)), Parse(line[..|line| - 1])) == Parse(artifact)
  {
    var base := Absolute(cwd, Parse(directory));
    var rel := RelativeTo(Parse(artifact), base).value;
    ParseToStr(rel);
    var line := ToStr(rel) + "\n";
    assert line[..|line| - 1] == ToStr(rel);
    JoinRelativeTo(Parse(artifact), base);
  }
}
