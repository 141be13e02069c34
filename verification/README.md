# image-timestamper, modelled in Dafny

`script.js` stamps an image file's modification time onto the image: it
reads the time and the image size, lays out a white box with the time in
bold black text in the bottom-right corner, composites that SVG layer onto
the image and writes a JPEG. A batch mode does the same for every image
file of a directory, and `main` chooses the mode from the command line.

The model keeps the tool's own logic and turns every external call
(filesystem, image library, clock formatting) into a parameter holding the
settled result of that call:

- `Layout` (layout.dfy) — font size, estimated text width, background box
  and text anchor, over exact `real` arithmetic.
- `ImageFilter` (filter.dfy) — the case-insensitive extension filter on a
  directory listing, with a reference definition through the name's last
  extension.
- `Paths` (paths.dfy) — `basename` as the part after the last `/`, and
  `join` as concatenation with one `/`.
- `Stamper` (stamper.dfy) — one call of `addModifiedTimeToImage`: stat,
  metadata, composite-and-write, and the first failure passed on.
- `Batch` (batch.dfy) — `processMultipleImages`: create the output
  directory, list, filter, stamp in order until the first failure, and log
  that failure instead of passing it on.
- `Cli` (cli.dfy) — argument dispatch of `main` and what a run does.
- `Basics`, `Strings` (basics.dfy, strings.dfy) — result types, ASCII case
  folding, suffixes, last index of a character.

Behaviour of the code that a reader might not expect, and which the
model keeps:

- The default single-image output is `timestamped_` + basename(input) in
  the working directory, not beside the input: `x/photo.jpg` is stamped
  into `timestamped_photo.jpg` (`Cli.DefaultOutputInWorkingDirectory`,
  `Cli.DefaultOutputExample`).
- `processMultipleImages` catches the first failing file's error, logs it
  and returns normally: the rest of the batch is skipped, and `main` never
  sees the error (`Cli.BatchErrorIsSwallowed`).
- `main().catch(console.error)` handles a rejection from single-image
  mode, so no error escapes the process; the model records the rejection
  as `Rejected` and says nothing about the exit status.

## Model

| member | source | states |
|---|---|---|
| Layout.FontSize | script.js:28 | the font size lies in [16, 48]; it equals width/30 exactly when 480 <= width <= 1440, is 16 below and 48 above |
| Layout.EstimatedTextWidth | script.js:31 | the estimated text width is never negative and is zero exactly for an empty string |
| Layout.EstimatedTextWidthPerCharacter | script.js:31 | the estimate is additive in the string length, and one character costs 0.52 times the font size |
| Layout.EstimatedTextWidthScales | script.js:31 | the estimate grows in proportion to the font size |
| Layout.ComputeOverlay | script.js:27-55 | the layer has the image's size and carries the time string; the font size is FontSize(width) and the text width the length heuristic at that size; the baseline is at height - 23.5; the box is the text width plus 7 on each side and the font size plus 7 above and below; the box's right edge is at width - 20 whatever the text, the text end sits 7 inside it and the estimated text start 7 inside the left edge; the box's bottom is at height - 13; the baseline and the glyph band above it lie strictly inside the box |
| Layout.BoxInsideCanvasIff | script.js:44-47 | the box lies within the image exactly when width >= 34 + text width and height >= 27 + font size |
| Layout.TimestampBoxFitsHorizontallyIff | script.js:28-44 | for the 20-character timestamp the box's left edge is inside the image exactly when the image is at least 201 wide |
| Layout.GeometryDependsOnlyOnLength | script.js:31-55 | two time strings of equal length give the same box and text anchor |
| Layout.Example800x600 | script.js:27-55 | an 800 x 600 image with "03/15/2024, 14:30:05" gets font size 80/3, the box at (766 - 832/3, 573 - 80/3) of size (832/3 + 14, 80/3 + 14) and the anchor (773, 576.5) |
| Layout.FontSizeExamples | script.js:28 | widths 900, 100 and 3000 give font sizes 30, 16 and 48 |
| ImageFilter.IsImageFileIffExtension | script.js:95-97 | a name matches the pattern exactly when it has a '.' and the text after its last '.', folded to lower case, is jpg, jpeg, png, webp or tiff |
| ImageFilter.IsImageFileIffSomeExtension | script.js:96 | a name matches the pattern exactly when it ends with '.' and one of the supported extensions, ignoring case |
| ImageFilter.ImageFiles | script.js:95-97 | the result is no longer than the listing, and a name occurs in it exactly when it occurs in the listing and names an image file |
| ImageFilter.ImageFilesCounts | script.js:95-97 | each image name is kept exactly as often as it is listed and every other name never: nothing is deduplicated |
| ImageFilter.ImageFilesCons | script.js:95-97 | each entry is kept or dropped on its own, whatever follows it |
| ImageFilter.ImageFilesIsSubsequence | script.js:95-97 | the kept names appear in listing order (a subsequence of the listing) |
| ImageFilter.ImageFilesKeepsImages | script.js:95-97 | a listing of image names only passes unchanged |
| ImageFilter.ImageFilesIdempotent | script.js:95-97 | filtering twice gives the same as filtering once |
| ImageFilter.KeptBySuffix | script.js:96 | a name ending in '.' and a supported extension in any letter case is kept |
| ImageFilter.DroppedByExtension | script.js:96 | a name whose text after the last '.' is no supported extension in any case is dropped |
| ImageFilter.AcceptedExamples | script.js:95-97 | "a.jpg" and "c.PNG" are kept |
| ImageFilter.AcceptedMixedCase | script.js:95-97 | "scan.TiFf" is kept: letter case is ignored within the extension |
| ImageFilter.AcceptedBareExtension | script.js:95-97 | ".webp" is kept: the match may start at the beginning of the name |
| ImageFilter.RejectedTxt | script.js:95-97 | "b.txt" is dropped |
| ImageFilter.RejectedGif | script.js:95-97 | "d.gif" is dropped |
| ImageFilter.RejectedTif | script.js:95-97 | "x.tif" is dropped: "tiff" must be spelled out |
| ImageFilter.RejectedTrailingSuffix | script.js:95-97 | "x.jpg.bak" is dropped: the match must end at the end of the name |
| ImageFilter.ListingExample | script.js:95-97 | the listing a.jpg, b.txt, c.PNG, d.gif yields exactly a.jpg, c.PNG |
| Paths.Basename | script.js:144 | the basename has no '/', is a suffix of the path, and is preceded by '/' or by nothing |
| Paths.JoinShape | script.js:102-103 | a joined path ends with the entry name, preceded by a '/' unless the directory is empty, in which case it is the name alone |
| Paths.BasenameOfJoin | script.js:102-103 | the basename of a directory joined with an entry name is that name |
| Paths.JoinInjective | script.js:103 | distinct entry names are joined to distinct paths under one directory |
| Stamper.AddModifiedTimeToImage | script.js:5-85 | the calls are stat, then metadata, then one composite-and-write to the output path; the run succeeds exactly when all three succeed; the first failure stops later calls and is passed on with its message; the written layer is the computed overlay for the image's size and the time string |
| Stamper.StampOutcome | script.js:5-85 | stamping a file succeeds exactly when its time, its size and the write all succeed; otherwise the error of the first failing call (time read, size read or write) surfaces unchanged, as the catch at script.js:81-83 rethrows it |
| Stamper.StampedOverlayIsAnchored | script.js:23-77 | a written overlay's box ends 20 before the right edge and 13 above the bottom, with the font size in [16, 48] |
| Batch.StampEach | script.js:101-107 | at most all files are attempted; every attempt before the last succeeded; the loop reaches the end exactly when every file succeeds; otherwise the last attempted file failed with the reported message |
| Batch.StampEachStopsAtFirstFailure | script.js:101-107 | when file k is the first to fail, exactly files 0..k are attempted and k's message is reported |
| Batch.ProcessMultipleImages | script.js:88-115 | the output directory is created first; a failure to create it or to list the input ends the run with that error logged; otherwise the attempted files are a prefix of the filtered listing in order, the batch completes exactly when every selected file stamps, and a completed batch reports the number of selected files |
| Batch.DirectoryCreatedBeforeStamping | script.js:91-106 | every stamp happens after the directory is created and the listing read, and only when both succeeded |
| Batch.BatchStopsAtFirstFailure | script.js:88-115 | when the k-th selected file is the first to fail, the run stamps exactly the selected files up to k, in order, and logs k's error |
| Batch.BatchCompletes | script.js:88-111 | when every selected file succeeds, all are stamped in order and their number is reported |
| Batch.BatchCompletesIff | script.js:88-115 | the batch completes exactly when the directory is made, the listing read and every selected file stamps successfully |
| Batch.OutputKeepsFileName | script.js:101-103 | every stamp reads a selected entry joined to the input directory and writes it under the same name joined to the output directory |
| Cli.DefaultOutputPath | script.js:144 | the default output starts with "timestamped_", contains no '/', and continues with the input's whole last segment (a suffix preceded by '/' or by nothing) |
| Cli.Dispatch | script.js:121-145 | no arguments show usage; "--batch" with fewer than 3 arguments is an error; with 3 or more it is a batch of args[1] into args[2]; anything else stamps args[0] into args[1], or into the default output when args[1] is missing or empty |
| Cli.ExtraArgumentsIgnored | script.js:136-144 | arguments beyond those a mode reads do not change the chosen mode |
| Cli.DefaultOutputInWorkingDirectory | script.js:143-144 | with only an input, the output is "timestamped_" + basename(input), a bare name in the working directory |
| Cli.RunMain | script.js:118-147 | usage and the missing-directories error do nothing; batch mode runs the batch driver on args[1] and args[2] and returns normally; only single mode can make main reject, and it does exactly when the stamper fails, with the stamper's message; single mode stamps exactly its input into its output |
| Cli.SingleModeRejectsIffStepFails | script.js:143-145 | with the stamper's own outcome per file, single mode rejects exactly when reading the time, reading the size or writing fails |
| Cli.BatchErrorIsSwallowed | script.js:112-114 | a batch that ends in error still returns normally from main, with the batch's effects |
| Cli.DispatchExamples | script.js:121-145 | sample command lines dispatch as the usage text describes |
| Cli.BasenameExample | script.js:144 | the basename of "x/photo.jpg" is "photo.jpg" |
| Cli.DefaultOutputExample | script.js:144 | "x/photo.jpg" alone, or with an empty second argument, is stamped into "timestamped_photo.jpg" |

## Left out

- Reading the modification time (`fs.stat`) and formatting it with `toLocaleString`: the time string is an input, and only its length affects the layout.
- Decoding the image, reading its metadata, compositing the SVG and encoding the JPEG through `sharp`: their results are inputs. The re-encoding of every output as JPEG whatever its extension is not modelled.
- A missing `metadata.width` (which makes the layout NaN): image sizes are natural numbers.
- `fs.mkdir` and `fs.readdir`: their results are inputs of the batch model; listing order is whatever the input gives.
- The SVG markup (shadow filter, colours, fonts, corner radius) and all console output.
- The process exit status.
- Layout.ComputeOverlay: uses exact real arithmetic, not IEEE-754 doubles, so rounding of the computed coordinates is not modelled.
- Paths.Basename: does not strip trailing '/' as `path.basename` does, so "dir/" has basename "" here.
- Paths.Join: does not normalise '.', '..' or repeated separators as `path.join` does.
