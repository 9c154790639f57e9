# Web Media Converter: the `/convert` handler in Dafny

This project models the one piece of server logic in Web Media Converter: the
`POST /convert` handler in `converter.py`, with the two extension allow-lists it uses.

The handler works in this order:

1. It rejects a request with no `file` part, or with an empty file name.
2. It saves the upload as `<uuid>_<secure_filename(name)>` in the upload directory.
3. It classifies the file by its lower-cased suffix: video first, then image.
4. It picks `.webm` or `.webp` and builds an `ffmpeg` command. Video gets a CRF of
   `int(10 + q * 0.6)`. Images get a WebP quality of `100 - q`.
5. It runs the encoder with a 300-second limit.
6. It answers with the converted file (with `X-File-Size` and a download name that has
   no uuid), or with a JSON error.
7. It removes the temporary files. Every failure path removes them at once; a
   successful response removes them when it is closed.

Modules, one concern per file:

- `paths.dfy` (`Paths`): the parts of Python 3.12's `pathlib` the handler uses, on
  a path's last component: `suffix` (the last dot counts only when it is neither the
  first nor the last character), `stem`, `with_suffix`, plus ASCII `str.lower`.
- `decimal.dfy` (`Decimal`): `str(n)` for the numbers the handler writes, and reading
  them back.
- `media_formats.dfy` (`MediaFormats`): the allow-lists, classification, target
  suffixes, and the CRF and WebP quality mappings.
- `encoder_command.dfy` (`EncoderCommand`): the argument lists, and a parser that reads
  a list back into input, option/value pairs and output. The parser is the inverse the
  command properties are stated against.
- `storage.dfy` (`Storage`): the upload directory as a class. It holds a map from an
  existing path to its size, with `save`, `os.remove`, `stat` and `exists`.
- `converter.dfy` (`Converter`): requests, encoder outcomes, responses, and the handler
  as imperative methods. `Convert` is the handler up to its `return`. `RunCleanup` is the
  function registered with `call_on_close`. `HandleRequest` is one whole request: the
  handler, then the close of a file response.

Inputs from outside the handler are parameters:

- `secure_filename` is a function parameter.
- The uuid is a token string.
- What the encoder did is an `EncoderRun`: it exited with a return code, it timed out,
  or `subprocess.run` raised. Each case may have left an output file of some size.

What is proved, in short:

- The two shape errors return 400 and leave the directory as it was.
- An unsupported suffix returns 400 with `Unsupported file format: <lower-cased
  suffix>`. No command is run, and only the saved input is removed.
- Every encoder failure returns 500, and both paths are gone afterwards: a nonzero exit
  (`Conversion failed`), the timeout message, another exception (its own message), and
  a zero exit that left no output file (the `stat` then raises `FileNotFoundError`).
- After a whole request, the directory is the old one minus the input and output paths.
  Nothing else is touched.
- Status 400 happens exactly when no encoder command was run.
- The command starts with `ffmpeg -i <input>` and ends with `-y <output>`. `-crf` is
  followed immediately by the CRF, and `-quality` by the WebP quality. Parsing the
  command recovers every option.
- The CRF is `10 + q * 0.6` truncated, lies in 16..64 on the slider range 10..90, never
  decreases as q grows, and is 28 at the default 30. The WebP quality is `100 - q`,
  strictly decreasing, and 70 at 30.
- The output path is the input path exactly when the raw suffix already is the target
  suffix (`clip.webm`; not `clip.WEBM`). The model keeps this case: the encoder then
  reads and writes one file, and a successful response sends whatever is at that path.
- The download name is `stem(sanitized name) + target suffix`. The output file is named
  `<token>_<download name>`, provided the token has no dot and the sanitized name does
  not start with one.

Two facts about the code that the model keeps as they are:

- On success the handler does not remove the temporary files before returning. Removal
  is deferred to the response's close (converter.py:1491-1497). That cleanup also stops
  at its first error: if the input were already gone, the output would be kept.
- The original size is computed (converter.py:1420) but never returned. Only the
  converted size goes into `X-File-Size`.

## Model

| member | source | states |
|---|---|---|
| `Paths.Suffix` | converter.py:1423 | a suffix is empty, or a dot followed by at least one character that is not a dot; it is shorter than the name |
| `Paths.Stem` | converter.py:1477 | a non-empty name has a non-empty stem |
| `Paths.StemSuffixSplit` | converter.py:1477 | a name is its stem followed by its suffix |
| `Paths.WithSuffix` | converter.py:1428 | after `with_suffix` the name carries the new suffix and keeps its stem |
| `Paths.WithSuffixReplaces` | converter.py:1428 | `with_suffix` appends the suffix to a name without one, and otherwise cuts the old suffix off the end and appends |
| `Paths.WithSuffixUnchangedIff` | converter.py:1447 | `with_suffix` leaves the name unchanged if and only if the name already has exactly that suffix |
| `Paths.Lower` | converter.py:1423 | lower-casing keeps the length and maps each ASCII capital to its small letter |
| `Paths.LowerIdempotent` | converter.py:1423 | lower-casing a lower-cased suffix changes nothing |
| `Paths.JoinSplits` | converter.py:1428 | a non-empty stem joined with a suffix splits back into that stem and suffix |
| `Paths.SuffixAfterPrefix` | converter.py:1416 | a dot-free `uuid_` prefix leaves the name's suffix unchanged and joins its stem, if the name does not start with a dot |
| `Paths.WithSuffixAfterPrefix` | converter.py:1428 | replacing the suffix of a prefixed name keeps the prefix before the name's stem |
| `Decimal.NatToString` | converter.py:1436 | `str(n)` is a non-empty string of digits with no leading zero |
| `Decimal.ParseNatToString` | converter.py:1488 | reading back a number written by `str` gives that number |
| `Decimal.NatToStringInjective` | converter.py:1455 | different numbers never get the same spelling |
| `MediaFormats.ExtensionListsDisjoint` | converter.py:21-22 | no suffix is on both the video and the image allow-list |
| `MediaFormats.Classify` | converter.py:1426-1460 | video if and only if on the video list; image if and only if on the image list; rejected if and only if on neither |
| `MediaFormats.TargetSuffix` | converter.py:1426-1447 | video gets `.webm` and images `.webp`; each target is on its own kind's allow-list and not on the other's, so it classifies back to the same kind |
| `MediaFormats.Crf` | converter.py:1431 | the CRF is the integer part of `10 + q * 0.6` |
| `MediaFormats.CrfSliderRange` | converter.py:1431 | for q in 10..90 the CRF lies in 16..64 |
| `MediaFormats.CrfMonotone` | converter.py:1431 | a larger quality reduction never gives a smaller CRF |
| `MediaFormats.CrfDefault` | converter.py:1412-1431 | the default reduction 30 gives CRF 28 |
| `MediaFormats.WebpQuality` | converter.py:1450 | WebP quality plus quality reduction is 100, and the quality is at most 100 |
| `MediaFormats.WebpQualityStrictlyDecreasing` | converter.py:1450 | a larger reduction gives a strictly lower WebP quality |
| `MediaFormats.WebpQualityDefault` | converter.py:1412-1450 | the default reduction 30 gives WebP quality 70 |
| `EncoderCommand.Render` | converter.py:1433-1443 | the argument list starts with `ffmpeg -i <input>`, ends with `-y <output>`, and has two entries per option |
| `EncoderCommand.ParseRender` | converter.py:1433-1459 | parsing a built command gives back its input, options and output |
| `EncoderCommand.RenderParse` | converter.py:1433-1459 | a command that parses is exactly the rendering of its parse |
| `EncoderCommand.OptionAdjacent` | converter.py:1436 | an option the job carries appears as the flag immediately followed by its value |
| `EncoderCommand.VideoOptions` | converter.py:1435-1440 | the video options are exactly six pairs giving `libvpx-vp9`, str(crf) for `-crf`, `0` for `-b:v`, `5` for `-cpu-used`, `libopus` and `128k`, and no `-quality` |
| `EncoderCommand.ImageOptions` | converter.py:1454-1456 | the image options are exactly three pairs giving `libwebp`, str(quality) for `-quality` and `default` for `-preset`, and no `-crf` |
| `EncoderCommand.KindOptions` | converter.py:1426-1459 | video gets six pairs, `libvpx-vp9` with the CRF and no WebP quality; images get three pairs, `libwebp` with 100 - q and no CRF |
| `EncoderCommand.ConversionCommand` | converter.py:1433-1459 | the command parses back to exactly the input, the kind's options and the output |
| `EncoderCommand.ImageCommandsDiffer` | converter.py:1450-1455 | two different quality reductions always give two different image command lines |
| `EncoderCommand.VideoCommandSays` | converter.py:1433-1443 | the video command has exactly 17 entries: `ffmpeg -i <input> -c:v libvpx-vp9 -crf` and exactly str(CRF), which reads back as the CRF, then `-b:v 0 -cpu-used 5 -c:a libopus -b:a 128k`, then `-y <output>`; it has no `-quality` |
| `EncoderCommand.ImageCommandSays` | converter.py:1452-1459 | the image command has exactly 11 entries: `ffmpeg -i <input> -c:v libwebp -quality` and exactly str(100 - q), which reads back as that number, then `-preset default`, then `-y <output>`; it has no `-crf` |
| `Storage.FileSystem.Save` | converter.py:1417 | saving creates or overwrites exactly that path with the upload's size |
| `Storage.FileSystem.Remove` | converter.py:1461 | `os.remove` removes exactly that path and reports failure if and only if the path did not exist |
| `Storage.FileSystem.Stat` | converter.py:1474 | `stat` gives the size if and only if the path exists |
| `Converter.Quality` | converter.py:1412 | the quality is the request's value, or 30 when it gives none |
| `Paths.PathString` | converter.py:1434 | `str(path)` is the directory, one `/`, then the name; for a name without `/` the text's last `/` is the one before the name |
| `Converter.InputPath` | converter.py:1416 | the input path lies in the upload directory and has a non-empty name |
| `Converter.PlanConversion` | converter.py:1423-1462 | rejected if and only if the lower-cased suffix is on neither list, with that suffix as the message detail; otherwise the kind is the classification, the output is in the same directory with the same stem and the target suffix, output equals input if and only if the raw suffix is already the target, and the command parses to input, the kind's options and output |
| `Converter.RunEncoder` | converter.py:1465 | the encoder changes the directory only by whatever it wrote at the output path |
| `Converter.DownloadName` | converter.py:1477 | for a non-empty sanitized name and an output with a suffix, the download name has the sanitized name's stem and the output's suffix |
| `Converter.NoSuchFileMessage` | converter.py:1474 | the `FileNotFoundError` text ends with the quoted output path and differs from both fixed failure texts |
| `Converter.FailureMessage` | converter.py:1467-1512 | after an exit the text is `Conversion failed` exactly when the code is nonzero; a timeout gives the timeout text; a raised exception gives its own message |
| `Converter.RemoveIfExists` | converter.py:1502-1505 | `if p.exists(): os.remove(p)` leaves the directory without `p` and otherwise unchanged |
| `Converter.EncodeAndRespond` | converter.py:1465-1512 | a zero exit with an output file present gives the download response and both files stay; every other outcome gives 500 with its message and removes input and output |
| `Converter.SaveAndConvert` | converter.py:1417-1462 | an unsupported suffix gives 400 naming the suffix, runs nothing and removes only the input; otherwise the command runs with the 300-second limit and the encoding outcome follows |
| `Converter.Convert` | converter.py:1402-1512 | no file part gives 400 `No file provided`, an empty name gives 400 `No file selected`, and neither touches the directory; otherwise the unsupported, failure and success cases with their exact responses and directory contents |
| `Converter.RunCleanup` | converter.py:1491-1497 | with the input present, both input and output are removed and the output's absence is swallowed; with the input absent nothing is removed |
| `Converter.HandleRequest` | converter.py:1402-1512 | after the whole request the directory is the old one minus the input (rejected suffix) or minus input and output (any encoding outcome), unchanged for shape errors; status 400 exactly when no command ran; status 200 exactly for a file response |
| `Converter.DownloadNameDropsToken` | converter.py:1477 | the kind depends only on the sanitized name; the download name is its stem plus the target suffix; the output file is `token_` plus the download name |
| `Converter.AcceptedUpload` | converter.py:1426-1477 | an upload `stem + suffix` with an allowed suffix gets that kind, download name `stem + target`, and output `token_` plus the download name |
| `Converter.RejectedUpload` | converter.py:1460-1462 | an upload `stem + suffix` with a suffix on neither list is rejected with the lower-cased suffix |
| `Converter.MovieDownloadName` | converter.py:1477 | `movie.mp4` is a video whose download is `movie.webm`, for any token |
| `Converter.PhotoDownloadName` | converter.py:1477 | `photo.png` is an image whose download is `photo.webp`, for any token |
| `Converter.WebmUploadIsItsOwnOutput` | converter.py:1428 | for `clip.webm` the output path is the input path |
| `Converter.UpperCaseWebmGetsNewPath` | converter.py:1428 | `clip.WEBM` is a video, but its output path `token_clip.webm` differs from the input path |
| `Converter.TextUploadIsRejected` | converter.py:1460-1462 | `notes.txt` is rejected as `.txt` |
| `Converter.LeadingDotNameKeepsWholeStem` | converter.py:1477 | a name `.mp4` is a video whose download name is `.mp4.webm` while its output is `token_.webm`: the token-free relation needs names that do not start with a dot |

## Left out

- The HTML, CSS and JavaScript page (converter.py:24-1396) and the `/` route: presentation only.
- Flask itself is not modelled: routing, `jsonify`, `send_file`'s streaming and headers other than the download name, the mimetype and `X-File-Size`, the 500 MB `MAX_CONTENT_LENGTH` (converter.py:18), and `threaded=True` concurrency. Responses are a datatype.
- `secure_filename` is a function parameter. The only thing assumed of it is that its result holds no `/`. It does strip leading dots, which the download-name lemmas assume.
- `uuid.uuid4()` is a token parameter without `/`. The download-name lemmas also assume it has no `.`, which holds for a uuid's text form.
- `subprocess.run` and ffmpeg: the encoder's effect is an `EncoderRun` parameter. Captured output, killing the child on timeout, and real encoding are not modelled. So is whether ffmpeg accepts the arguments: for example, q = 90 gives `-crf 64`, which lies above the 0..63 range libvpx-vp9 accepts, and the model sees that only as whatever exit the run reports.
- `int(request.form.get('quality', 30))` (converter.py:1412): the text is taken as already parsed. A non-numeric value raises before anything is saved, and that path is not modelled.
- `Converter.Convert`: requires 0 ≤ quality ≤ 100, the values a percentage reduction can take. The page's slider sends 10..90 in steps of 5 (converter.py:916), and the handler itself checks nothing (converter.py:1412). The requirement applies to every request. So it also excludes requests that never compute a CRF when they carry a quality outside 0..100: the two shape errors, unsupported suffixes, and images. An image above 100 would get a negative WebP quality, which the model does not write, since it writes numbers only as non-negative decimals.
- `Converter.HandleRequest`: the same 0 ≤ quality ≤ 100 requirement, excluding the same requests.
- `Converter.PlanConversion`: the same 0 ≤ quality ≤ 100 requirement. It also excludes unsupported suffixes and images with a quality outside that range.
- `MediaFormats.Crf`: requires 0 ≤ quality ≤ 100 and computes `10 + (6 * q) / 10` with integers. Its contract ties this to the exact value `10 + 0.6 q`. Python's `int(10 + quality * 0.6)` truncates toward zero while Dafny's `/` rounds down, so the two first differ below that range, at q = -17: Python truncates -0.2 to 0 and the integer formula gives -1. Floating-point rounding of `quality * 0.6` is not modelled.
- The text of `str(e)` in the generic handler is the message an `EncoderRun.Raised` carries. The one exception the model derives itself is the `FileNotFoundError` from `stat` on a missing output.
- I/O errors from `file.save`, from `stat` on the input, from `os.remove` in a failure branch, or from `send_file` are not modelled. The original size (converter.py:1420) is computed in the source but never used, so the model leaves it out.
- `Paths.Lower`: lower-cases ASCII only. Python's `str.lower` is Unicode-aware (the Kelvin sign becomes `k`), but `secure_filename` keeps only ASCII.
- `Paths.WithSuffix`: accepts only a non-empty well-formed suffix. pathlib also accepts `""`, which the handler never passes.
- Paths are compared as (directory, name) pairs, as on a case-sensitive file system. Symbolic links and file contents are not modelled; a file is only its size.
