/** One call of the single-image stamper: read the file's modification
    time, read the image's size, composite the overlay and write the
    result. The filesystem and the image library are not modelled; the
    settled value of each of their calls is a parameter. */
module Stamper {
  import opened Basics
  import Layout

  /** Pixel size reported by the image library. */
  datatype ImageInfo = ImageInfo(width: nat, height: nat)

  /** The external calls one stamping performs, in the order it makes them. */
  datatype Step =
    | StatFile(path: string)
    | ReadMetadata(path: string)
    | CompositeAndWrite(path: string, overlay: Layout.Overlay)

  datatype StampRun = StampRun(steps: seq<Step>, outcome: Outcome)

  /** Stamps `input` into `output`. `modifiedTime` is the result of reading
      the file's modification time, already formatted; `metadata` is the
      result of reading the image's size; `written` is the result of
      encoding and writing the composited image. Any failure ends the run
      and is passed on to the caller with its message. */
  function AddModifiedTimeToImage(
    input: string,
    output: string,
    modifiedTime: Result<string>,
    metadata: Result<ImageInfo>,
    written: Outcome): (r: StampRun)
    ensures 1 <= |r.steps| <= 3
    ensures r.steps[0] == StatFile(input)
    ensures |r.steps| >= 2 ==> r.steps[1] == ReadMetadata(input)
    // the run succeeds exactly when every external call succeeds
    ensures r.outcome.Ok? <==> modifiedTime.Success? && metadata.Success? && written.Ok?
    // a failure stops every later call and surfaces unchanged
    ensures modifiedTime.Failure? ==> |r.steps| == 1 && r.outcome == Err(modifiedTime.message)
    ensures modifiedTime.Success? && metadata.Failure? ==>
      |r.steps| == 2 && r.outcome == Err(metadata.message)
    ensures modifiedTime.Success? && metadata.Success? && written.Err? ==> r.outcome == written
    // only `output` is written, with a layer exactly the image's size carrying the time
    ensures |r.steps| == 3 <==> modifiedTime.Success? && metadata.Success?
    ensures |r.steps| == 3 ==>
      && r.steps[2].CompositeAndWrite?
      && r.steps[2].path == output
      && r.steps[2].overlay.canvasWidth == metadata.value.width
      && r.steps[2].overlay.canvasHeight == metadata.value.height
      && r.steps[2].overlay.text == modifiedTime.value
      && r.steps[2].overlay == Layout.ComputeOverlay(metadata.value.width, metadata.value.height, modifiedTime.value)
  {
    match modifiedTime
    case Failure(m) => StampRun([StatFile(input)], Err(m))
    case Success(timeString) =>
      match metadata
      case Failure(m) => StampRun([StatFile(input), ReadMetadata(input)], Err(m))
      case Success(info) =>
        var overlay := Layout.ComputeOverlay(info.width, info.height, timeString);
        StampRun([StatFile(input), ReadMetadata(input), CompositeAndWrite(output, overlay)], written)
  }

  /** A written overlay is anchored near the bottom-right corner of the
      image, with a clamped font size. */
  lemma StampedOverlayIsAnchored(input: string, output: string, time: string, info: ImageInfo, written: Outcome)
    ensures var r := AddModifiedTimeToImage(input, output, Success(time), Success(info), written);
      && |r.steps| == 3
      && var o := r.steps[2].overlay;
      && o.background.x + o.background.width == info.width as real - Layout.Padding
      && o.background.y + o.background.height == info.height as real - Layout.Padding + Layout.BgPadding
      && Layout.MinFontSize <= o.fontSize <= Layout.MaxFontSize
  {
  }

  /** What the filesystem and the image library answer for each path:
      the formatted modification time and the size of an input, and
      whether writing an output succeeds. */
  datatype Environment = Environment(
    modifiedTime: string -> Result<string>,
    metadata: string -> Result<ImageInfo>,
    written: string -> Outcome)

  /** The settled value of stamping `input` into `output` in `env`: the
      per-file outcome that the batch driver and `main` await. */
  function StampOutcome(env: Environment, input: string, output: string): (o: Outcome)
    ensures o.Ok? <==>
      env.modifiedTime(input).Success? && env.metadata(input).Success? && env.written(output).Ok?
    // whichever call fails first, its error is passed on unchanged
    ensures env.modifiedTime(input).Failure? ==> o == Err(env.modifiedTime(input).message)
    ensures env.modifiedTime(input).Success? && env.metadata(input).Failure? ==>
      o == Err(env.metadata(input).message)
    ensures env.modifiedTime(input).Success? && env.metadata(input).Success? ==> o == env.written(output)
  {
    AddModifiedTimeToImage(input, output, env.modifiedTime(input), env.metadata(input), env.written(output)).outcome
  }
}
