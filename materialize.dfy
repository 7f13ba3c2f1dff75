/**
 * Copying external files into the pack (`copy_external_files`): each file,
 * found under `root`, is copied to `target/unique_id/<path relative to root>`.
 * The copy itself (`os.makedirs` then `shutil.copyfile`) is a collaborator
 * that either succeeds or raises.
 */
module Materialize {
  import opened Wrappers
  import opened Seqs
  import opened Paths

  datatype CopyError =
    | NotUnderRoot(file: string)   // `relative_to` raised; this happens outside the try block
    | CopyRaised(file: string)     // strict: the copy's exception propagates
    | NewRootUnbound               // `new_root` read before assignment

  /** `new_root, new_files, failures`. */
  datatype CopyOutput = CopyOutput(newRoot: PurePath, newFiles: seq<PurePath>, failures: seq<string>)

  datatype CopyRequest = CopyRequest(target: string, root: string, uniqueId: string, strict: bool)

  /** The directory the run's files are placed in. */
  function NewRoot(q: CopyRequest): PurePath {
    Join(Parse(q.target), Parse(q.uniqueId))
  }

  /** Where `file` goes, when it lies under the root. */
  function Dest(q: CopyRequest, file: string): Option<PurePath> {
    match RelativeTo(Parse(file), Parse(q.root))
    case None => None
    case Some(rel) => Some(Join(NewRoot(q), rel))
  }

  /** What happens to one file. */
  datatype FileOutcome = OutsideRoot | CopiedTo(dest: PurePath) | CopyFailed

  /** `copy(file, dest)` is false when the copy raised. */
  function Outcome(q: CopyRequest, copy: (string, PurePath) -> bool, file: string): FileOutcome {
    match Dest(q, file)
    case None => OutsideRoot
    case Some(dest) => if copy(file, dest) then CopiedTo(dest) else CopyFailed
  }

  function OutcomeOf(q: CopyRequest, copy: (string, PurePath) -> bool): string -> FileOutcome {
    file => Outcome(q, copy, file)
  }

  /** One turn of the loop. */
  function CopyStep(strict: bool, acc: CopyOutput, file: string, o: FileOutcome): Result<CopyOutput, CopyError> {
    match o
    case OutsideRoot => Failure(NotUnderRoot(file))
    case CopiedTo(dest) => Success(acc.(newFiles := acc.newFiles + [dest]))
    case CopyFailed =>
      if strict then Failure(CopyRaised(file)) else Success(acc.(failures := acc.failures + [file]))
  }

  /** The loop over `files`, each file's fate given by `outcome`. */
  function Collect(strict: bool, newRoot: PurePath, outcome: string -> FileOutcome, files: seq<string>): Result<CopyOutput, CopyError>
    decreases |files|
  {
    if files == [] then Success(CopyOutput(newRoot, [], []))
    else
      match Collect(strict, newRoot, outcome, files[..|files| - 1])
      case Failure(err) => Failure(err)
      case Success(acc) => CopyStep(strict, acc, files[|files| - 1], outcome(files[|files| - 1]))
  }

  /** The loop with `new_root` known from the start: the intended behaviour. */
  function CopySpec(q: CopyRequest, copy: (string, PurePath) -> bool, files: seq<string>): Result<CopyOutput, CopyError> {
    Collect(q.strict, NewRoot(q), OutcomeOf(q, copy), files)
  }

  /** The code as written: `new_root` is only assigned inside the loop body. */
  function CopyAsWritten(q: CopyRequest, copy: (string, PurePath) -> bool, files: seq<string>): Result<CopyOutput, CopyError> {
    if files == [] then Failure(NewRootUnbound) else CopySpec(q, copy, files)
  }

  /** With no files to copy, the code as written raises where a new root was intended. */
  lemma EmptyFilesUnbound(q: CopyRequest, copy: (string, PurePath) -> bool)
    ensures CopyAsWritten(q, copy, []) == Failure(NewRootUnbound)
    ensures CopySpec(q, copy, []) == Success(CopyOutput(Join(Parse(q.target), Parse(q.uniqueId)), [], []))
  {
  }

  /** On any non-empty list the code as written and the intended loop agree. */
  lemma AsWrittenAgreesWhenNonEmpty(q: CopyRequest, copy: (string, PurePath) -> bool, files: seq<string>)
    requires files != []
    ensures CopyAsWritten(q, copy, files) == CopySpec(q, copy, files)
  {
  }

  lemma {:induction false} CollectFailurePersists(strict: bool, newRoot: PurePath, outcome: string -> FileOutcome, files: seq<string>, n: nat)
    requires n <= |files|
    requires Collect(strict, newRoot, outcome, files[..n]).Failure?
    ensures Collect(strict, newRoot, outcome, files) == Collect(strict, newRoot, outcome, files[..n])
    decreases |files|
  {
    if n < |files| {
      var init := files[..|files| - 1];
      assert init[..n] == files[..n];
      CollectFailurePersists(strict, newRoot, outcome, init, n);
    } else {
      assert files[..n] == files;
    }
  }

  lemma CollectNext(strict: bool, newRoot: PurePath, outcome: string -> FileOutcome, files: seq<string>, i: nat)
    requires i < |files|
    ensures Collect(strict, newRoot, outcome, files[..i + 1]) ==
      match Collect(strict, newRoot, outcome, files[..i])
      case Failure(err) => Failure(err)
      case Success(acc) => CopyStep(strict, acc, files[i], outcome(files[i]))
  {
    assert files[..i + 1][..i] == files[..i] && files[..i + 1][i] == files[i];
  }

  lemma Advance(q: CopyRequest, copy: (string, PurePath) -> bool, files: seq<string>, i: nat, acc: CopyOutput)
    requires i < |files|
    requires Collect(q.strict, NewRoot(q), OutcomeOf(q, copy), files[..i]) == Success(acc)
    ensures Collect(q.strict, NewRoot(q), OutcomeOf(q, copy), files[..i + 1]) ==
      CopyStep(q.strict, acc, files[i], OutcomeOf(q, copy)(files[i]))
  {
    CollectNext(q.strict, NewRoot(q), OutcomeOf(q, copy), files, i);
  }

  /** A raising file ends the loop with its error. */
  lemma Stop(q: CopyRequest, copy: (string, PurePath) -> bool, files: seq<string>, i: nat)
    requires i < |files|
    requires Collect(q.strict, NewRoot(q), OutcomeOf(q, copy), files[..i + 1]).Failure?
    ensures CopySpec(q, copy, files) == Collect(q.strict, NewRoot(q), OutcomeOf(q, copy), files[..i + 1])
  {
    CollectFailurePersists(q.strict, NewRoot(q), OutcomeOf(q, copy), files, i + 1);
  }

  /**
   * The body of the loop for one file: locate it under the root (raising when
   * it is not there), try the copy, and record the destination or the failure.
   */
  method CopyOne(q: CopyRequest, copy: (string, PurePath) -> bool, acc: CopyOutput, file: string)
    returns (r: Result<CopyOutput, CopyError>)
    requires acc.newRoot == NewRoot(q)
    ensures r == CopyStep(q.strict, acc, file, OutcomeOf(q, copy)(file))
    ensures r.Success? ==> r.value.newRoot == acc.newRoot
  {
    var relativePath := RelativeTo(Parse(file), Parse(q.root));
    assert OutcomeOf(q, copy)(file) == Outcome(q, copy, file);
    if relativePath.None? {
      assert Dest(q, file).None?;
      return Failure(NotUnderRoot(file));
    }
    var dest := Join(acc.newRoot, relativePath.value);
    assert Dest(q, file) == Some(dest);
    if copy(file, dest) {
      return Success(acc.(newFiles := acc.newFiles + [dest]));
    }
    if q.strict {
      return Failure(CopyRaised(file));
    }
    return Success(acc.(failures := acc.failures + [file]));
  }

  /** `copy_external_files`, with `new_root` computed before the loop. */
  method CopyExternalFiles(q: CopyRequest, copy: (string, PurePath) -> bool, files: seq<string>)
    returns (r: Result<CopyOutput, CopyError>)
    ensures r == CopySpec(q, copy, files)
  {
    var newRoot := NewRoot(q);  // Path(target_directory, unique_id)
    var newFiles: seq<PurePath> := [];
    var failures: seq<string> := [];
    var i := 0;
    assert files[..0] == [];
    while i < |files|
      invariant 0 <= i <= |files|
      invariant Collect(q.strict, newRoot, OutcomeOf(q, copy), files[..i]) == Success(CopyOutput(newRoot, newFiles, failures))
    {
      Advance(q, copy, files, i, CopyOutput(newRoot, newFiles, failures));
      var next := CopyOne(q, copy, CopyOutput(newRoot, newFiles, failures), files[i]);
      if next.Failure? {
        Stop(q, copy, files, i);
        return next;
      }
      assert next.value == CopyOutput(newRoot, next.value.newFiles, next.value.failures);
      newFiles, failures := next.value.newFiles, next.value.failures;
      i := i + 1;
    }
    assert files[..|files|] == files;
    return Success(CopyOutput(newRoot, newFiles, failures));
  }

  // ---------------------------------------------------------------------------
  // What the copy returns, stated without the loop.

  /** Whether a file with this outcome raises out of the function. */
  predicate Raising(strict: bool, o: FileOutcome) {
    o == OutsideRoot || (strict && o == CopyFailed)
  }

  function FailedUnder(outcome: string -> FileOutcome): string -> bool {
    f => outcome(f) == CopyFailed
  }

  /** A file outside the root raises even without `strict`; a failed copy raises only with it. */
  lemma {:induction false} CollectFailsIff(strict: bool, newRoot: PurePath, outcome: string -> FileOutcome, files: seq<string>)
    ensures Collect(strict, newRoot, outcome, files).Failure? <==>
      exists i :: 0 <= i < |files| && Raising(strict, outcome(files[i]))
    decreases |files|
  {
    if files != [] {
      var init := files[..|files| - 1];
      CollectFailsIff(strict, newRoot, outcome, init);
      assert forall i :: 0 <= i < |init| ==> init[i] == files[i];
    }
  }

  /** On success the new root is the one given and the failures are the files whose copy raised, in order. */
  lemma {:induction false} CollectFailures(strict: bool, newRoot: PurePath, outcome: string -> FileOutcome, files: seq<string>)
    requires Collect(strict, newRoot, outcome, files).Success?
    ensures Collect(strict, newRoot, outcome, files).value.newRoot == newRoot
    ensures Collect(strict, newRoot, outcome, files).value.failures == Filter(files, FailedUnder(outcome))
    decreases |files|
  {
    if files != [] {
      var init := files[..|files| - 1];
      var last := files[|files| - 1];
      assert Collect(strict, newRoot, outcome, init).Success?;
      CollectFailures(strict, newRoot, outcome, init);
      assert files == init + [last];
      FilterSnoc(init, last, FailedUnder(outcome));
    }
  }

  /** The destinations of the files copied, in order. */
  function Dests(outcome: string -> FileOutcome, files: seq<string>): (r: seq<PurePath>)
    ensures |r| <= |files|
  {
    if files == [] then []
    else (if outcome(files[0]).CopiedTo? then [outcome(files[0]).dest] else []) + Dests(outcome, files[1..])
  }

  lemma {:induction false} DestsSnoc(outcome: string -> FileOutcome, files: seq<string>, last: string)
    ensures Dests(outcome, files + [last]) ==
      Dests(outcome, files) + (if outcome(last).CopiedTo? then [outcome(last).dest] else [])
  {
    if files == [] {
      assert [last][1..] == [];
    } else {
      assert (files + [last])[1..] == files[1..] + [last];
      DestsSnoc(outcome, files[1..], last);
    }
  }

  /** A path is a destination exactly when some file was copied to it. */
  lemma {:induction false} DestsMembership(outcome: string -> FileOutcome, files: seq<string>, d: PurePath)
    ensures d in Dests(outcome, files) <==> exists i :: 0 <= i < |files| && outcome(files[i]) == CopiedTo(d)
  {
    if files != [] {
      DestsMembership(outcome, files[1..], d);
      if exists i :: 0 <= i < |files[1..]| && outcome(files[1..][i]) == CopiedTo(d) {
        var i :| 0 <= i < |files[1..]| && outcome(files[1..][i]) == CopiedTo(d);
        assert outcome(files[i + 1]) == CopiedTo(d);
      }
      if exists i :: 0 <= i < |files| && outcome(files[i]) == CopiedTo(d) {
        var i :| 0 <= i < |files| && outcome(files[i]) == CopiedTo(d);
        if i > 0 { assert outcome(files[1..][i - 1]) == CopiedTo(d); }
      }
    }
  }

  /** On success the new files are the destinations of the files copied, in order. */
  lemma {:induction false} CollectNewFiles(strict: bool, newRoot: PurePath, outcome: string -> FileOutcome, files: seq<string>)
    requires Collect(strict, newRoot, outcome, files).Success?
    ensures Collect(strict, newRoot, outcome, files).value.newFiles == Dests(outcome, files)
    decreases |files|
  {
    if files != [] {
      var init := files[..|files| - 1];
      var last := files[|files| - 1];
      assert Collect(strict, newRoot, outcome, init).Success?;
      CollectNewFiles(strict, newRoot, outcome, init);
      assert files == init + [last];
      DestsSnoc(outcome, init, last);
    }
  }

  /** The new root of a successful copy is `target/unique_id`. */
  lemma CopyNewRoot(q: CopyRequest, copy: (string, PurePath) -> bool, files: seq<string>)
    requires CopySpec(q, copy, files).Success?
    ensures CopySpec(q, copy, files).value.newRoot == Join(Parse(q.target), Parse(q.uniqueId))
  {
    CollectFailures(q.strict, NewRoot(q), OutcomeOf(q, copy), files);
  }

  /** A copy of `root/x` lands at `target/unique_id/x`. */
  lemma DestKeepsRelativePath(q: CopyRequest, copy: (string, PurePath) -> bool, file: string)
    requires Outcome(q, copy, file) != OutsideRoot
    ensures RelativeTo(Parse(file), Parse(q.root)).Some?
    ensures Outcome(q, copy, file).CopiedTo? ==>
      RelativeTo(Outcome(q, copy, file).dest, Join(Parse(q.target), Parse(q.uniqueId))) == RelativeTo(Parse(file), Parse(q.root))
  {
    RelativeToJoin(NewRoot(q), RelativeTo(Parse(file), Parse(q.root)).value);
  }
}
