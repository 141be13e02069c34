/** The command-line entry point: choose a mode from the arguments, then
    run the batch driver or the single-image stamper. */
module Cli {
  import opened Basics
  import opened Strings
  import opened Paths
  import Batch
  import Stamper

  const BatchFlag: string := "--batch"
  const OutputPrefix: string := "timestamped_"

  /** What the arguments ask for. */
  datatype Action =
    | ShowUsage
    | MissingBatchDirectories
    | RunBatch(inputDir: string, outputDir: string)
    | StampSingle(input: string, output: string)

  /** Output path used when none is given: the input's last segment with a
      prefix, relative to the working directory. */
  function DefaultOutputPath(input: string): (r: string)
    ensures Separator !in r
    ensures |r| >= |OutputPrefix| && r[..|OutputPrefix|] == OutputPrefix
    // what follows the prefix is the input's whole last segment
    ensures EndsWith(input, r[|OutputPrefix|..])
    ensures |r| - |OutputPrefix| == |input| || input[|input| - |r| + |OutputPrefix| - 1] == Separator
  {
    OutputPrefix + Basename(input)
  }

  /** Chooses the mode from the arguments that follow the script name. An
      empty second argument counts as absent. */
  function Dispatch(args: seq<string>): (a: Action)
    ensures a.ShowUsage? <==> |args| == 0
    ensures a.MissingBatchDirectories? <==> 0 < |args| < 3 && args[0] == BatchFlag
    ensures a.RunBatch? <==> |args| >= 3 && args[0] == BatchFlag
    ensures a.RunBatch? ==> a.inputDir == args[1] && a.outputDir == args[2]
    ensures a.StampSingle? <==> |args| > 0 && args[0] != BatchFlag
    ensures a.StampSingle? ==> a.input == args[0]
    ensures a.StampSingle? && |args| >= 2 && args[1] != "" ==> a.output == args[1]
    ensures a.StampSingle? && (|args| < 2 || args[1] == "") ==> a.output == DefaultOutputPath(args[0])
  {
    if |args| == 0 then ShowUsage
    else if args[0] == BatchFlag then
      if |args| < 3 then MissingBatchDirectories else RunBatch(args[1], args[2])
    else
      var output := if |args| >= 2 && args[1] != "" then args[1] else DefaultOutputPath(args[0]);
      StampSingle(args[0], output)
  }

  /** Arguments after those a mode reads are ignored. */
  lemma ExtraArgumentsIgnored(args: seq<string>, extra: seq<string>)
    requires |args| >= 3 || (|args| == 2 && args[0] != BatchFlag && args[1] != "")
    ensures Dispatch(args + extra) == Dispatch(args)
  {
  }

  /** Without an explicit output, the single-image output is a bare file
      name: it is written to the working directory, not beside the input,
      and keeps the input's file name after the prefix. */
  lemma DefaultOutputInWorkingDirectory(input: string)
    requires input != BatchFlag
    ensures var a := Dispatch([input]);
      && a == StampSingle(input, DefaultOutputPath(input))
      && Separator !in a.output
      && Basename(a.output) == a.output
      && a.output == OutputPrefix + Basename(input)
  {
  }

  /** How `main` settles. A rejection from the single-image stamper reaches
      the handler attached to `main`, which logs it; the batch driver never
      rejects. */
  datatype Completion = Returned | Rejected(message: string)

  datatype CliRun = CliRun(effects: seq<Batch.Effect>, completion: Completion)

  /** The external world as seen by one run: the results of creating the
      output directory and listing the input directory, and the result of
      stamping one input path into one output path. */
  datatype World = World(
    made: Outcome,
    listing: Result<seq<string>>,
    stamp: (string, string) -> Outcome)

  function RunMain(args: seq<string>, world: World): (r: CliRun)
    // usage text and the argument error do nothing else
    ensures |args| == 0 ==> r == CliRun([], Returned)
    ensures Dispatch(args).MissingBatchDirectories? ==> r == CliRun([], Returned)
    // only the single-image stamper can make main reject
    ensures r.completion.Rejected? ==> Dispatch(args).StampSingle?
    // batch mode runs the batch driver on the two directories and returns normally
    ensures Dispatch(args).RunBatch? ==>
      r == CliRun(
        Batch.ProcessMultipleImages(Dispatch(args).inputDir, Dispatch(args).outputDir,
                                    world.made, world.listing, world.stamp).effects,
        Returned)
    // single mode stamps once and rejects with the stamper's own error
    ensures Dispatch(args).StampSingle? ==>
      && r.effects == [Batch.StampImage(Dispatch(args).input, Dispatch(args).output)]
      && (r.completion.Rejected? <==> world.stamp(Dispatch(args).input, Dispatch(args).output).Err?)
      && (r.completion.Rejected? ==>
            world.stamp(Dispatch(args).input, Dispatch(args).output) == Err(r.completion.message))
  {
    match Dispatch(args)
    case ShowUsage => CliRun([], Returned)
    case MissingBatchDirectories => CliRun([], Returned)
    case RunBatch(inputDir, outputDir) =>
      var run := Batch.ProcessMultipleImages(inputDir, outputDir, world.made, world.listing, world.stamp);
      CliRun(run.effects, Returned)
    case StampSingle(input, output) =>
      match world.stamp(input, output)
      case Ok => CliRun([Batch.StampImage(input, output)], Returned)
      case Err(m) => CliRun([Batch.StampImage(input, output)], Rejected(m))
  }

  /** A failing file ends a batch without making main reject: the batch
      driver logs the error and returns normally. */
  lemma BatchErrorIsSwallowed(inputDir: string, outputDir: string, rest: seq<string>, world: World)
    requires Batch.ProcessMultipleImages(inputDir, outputDir, world.made, world.listing, world.stamp).log.BatchError?
    ensures RunMain([BatchFlag, inputDir, outputDir] + rest, world)
      == CliRun(Batch.ProcessMultipleImages(inputDir, outputDir, world.made, world.listing, world.stamp).effects, Returned)
  {
  }

  /** With the stamper's own outcome as the per-file oracle, stamping a
      single image makes main reject exactly when reading the time, reading
      the size or writing the output fails. */
  lemma SingleModeRejectsIffStepFails(
    input: string, output: string, made: Outcome,
    listing: Result<seq<string>>, env: Stamper.Environment)
    requires input != BatchFlag && output != ""
    ensures var world := World(made, listing, (i, o) => Stamper.StampOutcome(env, i, o));
      RunMain([input, output], world).completion.Rejected? <==>
        || env.modifiedTime(input).Failure?
        || env.metadata(input).Failure?
        || env.written(output).Err?
  {
    assert Dispatch([input, output]) == StampSingle(input, output);
  }

  lemma DispatchExamples()
    ensures Dispatch([]) == ShowUsage
    ensures Dispatch(["--batch", "./photos"]) == MissingBatchDirectories
    ensures Dispatch(["--batch", "./photos", "./out", "x"]) == RunBatch("./photos", "./out")
    ensures Dispatch(["photo.jpg", "photo_with_time.jpg"]) == StampSingle("photo.jpg", "photo_with_time.jpg")
  {
  }

  lemma BasenameExample()
    ensures Basename("x/photo.jpg") == "photo.jpg"
  {
    var p := "x/photo.jpg";
    var b := Basename(p);
    assert p[1] == '/' && forall j :: 1 < j < |p| ==> p[j] != '/';
    assert |b| == |p| - 2 by {
      if |b| > |p| - 2 {
        assert false;
      } else if |b| < |p| - 2 {
        assert false;
      }
    }
    assert b == p[2..];
  }

  /** The default output for an input in another directory lands in the
      working directory. */
  lemma DefaultOutputExample()
    ensures Dispatch(["x/photo.jpg"]) == StampSingle("x/photo.jpg", "timestamped_photo.jpg")
    ensures Dispatch(["x/photo.jpg", ""]) == StampSingle("x/photo.jpg", "timestamped_photo.jpg")
  {
    BasenameExample();
    assert DefaultOutputPath("x/photo.jpg") == "timestamped_" + "photo.jpg" == "timestamped_photo.jpg";
  }
}
