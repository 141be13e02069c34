/** The batch driver: create the output directory, list the input
    directory, keep the image files, and stamp them one after another
    under the same name in the output directory. The first failure ends
    the batch; it is logged and not passed on. */
module Batch {
  import opened Basics
  import opened Paths
  import opened ImageFilter

  /** The external calls a run makes, in order. `StampImage` stands for one
      call of the single-image stamper. */
  datatype Effect =
    | MakeDirectory(path: string)
    | ListDirectory(path: string)
    | StampImage(input: string, output: string)

  /** How a batch ends: every selected file stamped, or an error logged. */
  datatype BatchLog = Completed(processed: nat) | BatchError(message: string)

  datatype BatchRun = BatchRun(effects: seq<Effect>, log: BatchLog)

  /** Outcome of the stamping loop: how many files were attempted, and the
      message of the failure that stopped it, if one did. */
  datatype LoopRun = LoopRun(attempted: nat, failure: Option<string>)

  /** The stamper call for directory entry `file`. */
  function StampCall(inputDir: string, outputDir: string, file: string): Effect {
    StampImage(Join(inputDir, file), Join(outputDir, file))
  }

  function Stamps(inputDir: string, outputDir: string, files: seq<string>): (r: seq<Effect>)
    ensures |r| == |files|
    ensures forall i :: 0 <= i < |files| ==> r[i] == StampCall(inputDir, outputDir, files[i])
  {
    if |files| == 0 then [] else [StampCall(inputDir, outputDir, files[0])] + Stamps(inputDir, outputDir, files[1..])
  }

  /** Whether the stamper succeeds on entry `file`. */
  predicate Succeeds(stamp: (string, string) -> Outcome, inputDir: string, outputDir: string, file: string) {
    stamp(Join(inputDir, file), Join(outputDir, file)).Ok?
  }

  /** Whether the stamper succeeds on every one of `files`. */
  predicate AllSucceed(stamp: (string, string) -> Outcome, inputDir: string, outputDir: string, files: seq<string>) {
    forall i :: 0 <= i < |files| ==> Succeeds(stamp, inputDir, outputDir, files[i])
  }

  /** Stamps `files` in order, each awaited before the next, until one fails. */
  function StampEach(
    inputDir: string,
    outputDir: string,
    files: seq<string>,
    stamp: (string, string) -> Outcome): (r: LoopRun)
    ensures r.attempted <= |files|
    // every attempt before the last one succeeded
    ensures forall i :: 0 <= i < r.attempted - 1 ==> Succeeds(stamp, inputDir, outputDir, files[i])
    // the loop runs to the end exactly when no attempt fails
    ensures r.failure.None? ==> r.attempted == |files|
    ensures r.failure.None? <==> AllSucceed(stamp, inputDir, outputDir, files)
    // it stops right after the first failure, keeping that failure's message
    ensures r.failure.Some? ==>
      && r.attempted >= 1
      && stamp(Join(inputDir, files[r.attempted - 1]), Join(outputDir, files[r.attempted - 1]))
         == Err(r.failure.value)
  {
    if |files| == 0 then LoopRun(0, None)
    else
      match stamp(Join(inputDir, files[0]), Join(outputDir, files[0]))
      case Err(m) =>
        assert !Succeeds(stamp, inputDir, outputDir, files[0]);
        LoopRun(1, Some(m))
      case Ok =>
        var tail := files[1..];
        var rest := StampEach(inputDir, outputDir, tail, stamp);
        assert forall i :: 1 <= i < |files| ==> files[i] == tail[i - 1];
        assert AllSucceed(stamp, inputDir, outputDir, files) <==> AllSucceed(stamp, inputDir, outputDir, tail);
        LoopRun(rest.attempted + 1, rest.failure)
  }

  /** One batch run. `made` is the result of creating the output directory
      (an existing directory is not an error), `listing` the result of
      reading the input directory, and `stamp` the result of stamping one
      input path into one output path. */
  function ProcessMultipleImages(
    inputDir: string,
    outputDir: string,
    made: Outcome,
    listing: Result<seq<string>>,
    stamp: (string, string) -> Outcome): (r: BatchRun)
    // the output directory is created before anything else happens
    ensures |r.effects| >= 1 && r.effects[0] == MakeDirectory(outputDir)
    ensures made.Err? ==> r == BatchRun([MakeDirectory(outputDir)], BatchError(made.message))
    ensures made.Ok? ==> |r.effects| >= 2 && r.effects[1] == ListDirectory(inputDir)
    ensures made.Ok? && listing.Failure? ==> r.effects == [MakeDirectory(outputDir), ListDirectory(inputDir)]
    ensures made.Ok? && listing.Failure? ==> r.log == BatchError(listing.message)
    // the files attempted are a prefix of the selected files, in listing order
    ensures made.Ok? && listing.Success? ==>
      && |r.effects| - 2 <= |ImageFiles(listing.value)|
      && r.effects[2..] == Stamps(inputDir, outputDir, ImageFiles(listing.value)[..|r.effects| - 2])
    // after a successful listing the batch completes exactly when every selected file stamps,
    // and then it reports how many it stamped
    ensures made.Ok? && listing.Success? ==>
      (r.log.Completed? <==> AllSucceed(stamp, inputDir, outputDir, ImageFiles(listing.value)))
    ensures r.log.Completed? ==> r.log.processed == |ImageFiles(listing.value)|
  {
    if made.Err? then BatchRun([MakeDirectory(outputDir)], BatchError(made.message))
    else if listing.Failure? then
      BatchRun([MakeDirectory(outputDir), ListDirectory(inputDir)], BatchError(listing.message))
    else
      var imageFiles := ImageFiles(listing.value);
      var loop := StampEach(inputDir, outputDir, imageFiles, stamp);
      var effects := [MakeDirectory(outputDir), ListDirectory(inputDir)]
        + Stamps(inputDir, outputDir, imageFiles[..loop.attempted]);
      match loop.failure
      case None => BatchRun(effects, Completed(|imageFiles|))
      case Some(m) => BatchRun(effects, BatchError(m))
  }

  /** The stamping loop's result in terms of the first failing file: it
      attempts exactly the files up to and including that one. */
  lemma StampEachStopsAtFirstFailure(
    inputDir: string, outputDir: string, files: seq<string>,
    stamp: (string, string) -> Outcome, k: nat)
    requires k < |files| && !Succeeds(stamp, inputDir, outputDir, files[k])
    requires forall j :: 0 <= j < k ==> Succeeds(stamp, inputDir, outputDir, files[j])
    ensures StampEach(inputDir, outputDir, files, stamp)
      == LoopRun(k + 1, Some(stamp(Join(inputDir, files[k]), Join(outputDir, files[k])).message))
  {
  }

  /** Nothing is stamped before the output directory has been created and
      the input directory listed. */
  lemma DirectoryCreatedBeforeStamping(
    inputDir: string, outputDir: string, made: Outcome,
    listing: Result<seq<string>>, stamp: (string, string) -> Outcome)
    ensures var r := ProcessMultipleImages(inputDir, outputDir, made, listing, stamp);
      && r.effects[0] == MakeDirectory(outputDir)
      && forall i :: 0 <= i < |r.effects| && r.effects[i].StampImage? ==>
           i >= 2 && made.Ok? && listing.Success? && r.effects[1] == ListDirectory(inputDir)
  {
  }

  /** When the first failing file is the k-th selected one, the batch
      attempts exactly the selected files up to it, in listing order, and
      ends by logging that file's error. */
  lemma BatchStopsAtFirstFailure(
    inputDir: string, outputDir: string, names: seq<string>,
    stamp: (string, string) -> Outcome, k: nat)
    requires var files := ImageFiles(names);
      && k < |files| && !Succeeds(stamp, inputDir, outputDir, files[k])
      && forall j :: 0 <= j < k ==> Succeeds(stamp, inputDir, outputDir, files[j])
    ensures var files := ImageFiles(names);
      ProcessMultipleImages(inputDir, outputDir, Ok, Success(names), stamp)
        == BatchRun(
             [MakeDirectory(outputDir), ListDirectory(inputDir)] + Stamps(inputDir, outputDir, files[..k + 1]),
             BatchError(stamp(Join(inputDir, files[k]), Join(outputDir, files[k])).message))
  {
    StampEachStopsAtFirstFailure(inputDir, outputDir, ImageFiles(names), stamp, k);
  }

  /** When every selected file stamps successfully, the batch stamps all of
      them, in listing order, and reports their number. */
  lemma BatchCompletes(
    inputDir: string, outputDir: string, names: seq<string>,
    stamp: (string, string) -> Outcome)
    requires AllSucceed(stamp, inputDir, outputDir, ImageFiles(names))
    ensures var files := ImageFiles(names);
      ProcessMultipleImages(inputDir, outputDir, Ok, Success(names), stamp)
        == BatchRun(
             [MakeDirectory(outputDir), ListDirectory(inputDir)] + Stamps(inputDir, outputDir, files),
             Completed(|files|))
  {
  }

  /** The batch completes exactly when the output directory and the listing
      are obtained and every selected file stamps successfully. */
  lemma BatchCompletesIff(
    inputDir: string, outputDir: string, made: Outcome,
    listing: Result<seq<string>>, stamp: (string, string) -> Outcome)
    ensures ProcessMultipleImages(inputDir, outputDir, made, listing, stamp).log.Completed? <==>
      && made.Ok? && listing.Success?
      && AllSucceed(stamp, inputDir, outputDir, ImageFiles(listing.value))
  {
  }

  /** Every stamped file keeps its name: it is read from the input
      directory and written under the same name in the output directory,
      and it is one of the selected image files. */
  lemma OutputKeepsFileName(
    inputDir: string, outputDir: string, made: Outcome,
    listing: Result<seq<string>>, stamp: (string, string) -> Outcome)
    requires listing.Success? ==> forall f :: f in listing.value ==> Separator !in f
    ensures var r := ProcessMultipleImages(inputDir, outputDir, made, listing, stamp);
      forall i :: 0 <= i < |r.effects| && r.effects[i].StampImage? ==>
        && Basename(r.effects[i].output) == Basename(r.effects[i].input)
        && r.effects[i].input == Join(inputDir, Basename(r.effects[i].input))
        && r.effects[i].output == Join(outputDir, Basename(r.effects[i].input))
        && Basename(r.effects[i].input) in ImageFiles(listing.value)
  {
    var r := ProcessMultipleImages(inputDir, outputDir, made, listing, stamp);
    forall i | 0 <= i < |r.effects| && r.effects[i].StampImage?
      ensures Basename(r.effects[i].output) == Basename(r.effects[i].input)
      ensures r.effects[i].input == Join(inputDir, Basename(r.effects[i].input))
      ensures r.effects[i].output == Join(outputDir, Basename(r.effects[i].input))
      ensures Basename(r.effects[i].input) in ImageFiles(listing.value)
    {
      var files := ImageFiles(listing.value);
      var attempted := files[..|r.effects| - 2];
      assert r.effects[i] == r.effects[2..][i - 2] == StampCall(inputDir, outputDir, attempted[i - 2]);
      var f := attempted[i - 2];
      assert f in files;
      BasenameOfJoin(inputDir, f);
      BasenameOfJoin(outputDir, f);
    }
  }
}
