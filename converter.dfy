/** The `/convert` request handler: validates the upload, saves it under a token-prefixed
    name, classifies it, runs the encoder with a 300-second limit, and answers with the
    converted file or a JSON error, removing its temporary files on every path. */
module Converter {
  import opened Wrappers
  import opened Paths
  import opened Decimal
  import opened MediaFormats
  import opened EncoderCommand
  import opened Storage

  /** The `timeout` given to `subprocess.run`, in seconds. */
  const EncoderTimeoutSeconds: nat := 300

  /** The `file` part of the multipart body: the client's file name and the byte count. */
  datatype Upload = Upload(filename: string, size: nat)

  /** A `POST /convert` request: the optional `file` part and the optional `quality`
      field, already read as an integer. */
  datatype Request = Request(file: Option<Upload>, quality: Option<int>)

  /** The quality reduction the request asks for, or the default when its form has none. */
  function Quality(req: Request): (q: int)
    ensures req.quality == None ==> q == DefaultQuality
    ensures req.quality.Some? ==> q == req.quality.value
  {
    req.quality.GetOr(DefaultQuality)
  }

  /** What the encoder run did: it exited with a return code, it was stopped at the time
      limit, or `subprocess.run` raised some other exception. In each case the encoder may
      have left a file of some size at the output path. */
  datatype EncoderRun =
    | Exited(returnCode: int, written: Option<nat>)
    | TimedOut(written: Option<nat>)
    | Raised(message: string, written: Option<nat>)

  /** One call of `subprocess.run`: the argument list and the time limit. */
  datatype Invocation = Invocation(argv: seq<string>, timeoutSeconds: nat)

  /** The removals registered with `response.call_on_close`. */
  datatype Cleanup = Cleanup(input: Path, output: Path)

  /** A JSON `{"error": ...}` answer with its status, or the converted file sent as an
      attachment with its download name and the `X-File-Size` header. */
  datatype Response =
    | JsonError(status: nat, error: string)
    | FileDownload(path: Path, downloadName: string, mimetype: string, fileSize: string, onClose: Cleanup)
  {
    function Status(): nat
    {
      match this
      case JsonError(status, _) => status
      case FileDownload(_, _, _, _, _) => 200
    }
  }

  /** Where the upload is saved: in the upload directory, named by the token, an
      underscore and the sanitized file name. */
  function InputPath(folder: string, token: string, sanitized: string): (p: Path)
    ensures p.dir == folder && p.name != ""
  {
    Path(folder, token + "_" + sanitized)
  }

  /** What the handler decides once the upload is saved: reject the suffix, or encode into
      a target path with an argument list. */
  datatype Plan = Unsupported(ext: string) | Encode(kind: Kind, output: Path, argv: seq<string>)

  /** Classification of the saved input by its lower-cased suffix, the output path
      (`input_path.with_suffix(...)`) and the encoder command. */
  function PlanConversion(input: Path, q: int): (p: Plan)
    requires input.name != ""
    requires InModelledRange(q)
    ensures p.Unsupported? <==> Classify(Lower(Suffix(input.name))) == None
    ensures p.Unsupported? ==> p.ext == Lower(Suffix(input.name))
    ensures p.Encode? ==> Classify(Lower(Suffix(input.name))) == Some(p.kind)
    ensures p.Encode? ==> p.output.dir == input.dir && Stem(p.output.name) == Stem(input.name)
    ensures p.Encode? ==> Suffix(p.output.name) == TargetSuffix(p.kind)
    ensures p.Encode? ==> (p.output == input <==> Suffix(input.name) == TargetSuffix(p.kind))
    ensures p.Encode? ==>
      ParseCommand(p.argv) == Some(Job(PathString(input), KindOptions(p.kind, q), PathString(p.output)))
  {
    var ext := Lower(Suffix(input.name));
    match Classify(ext)
    case None => Unsupported(ext)
    case Some(kind) =>
      var output := Path(input.dir, WithSuffix(input.name, TargetSuffix(kind)));
      WithSuffixUnchangedIff(input.name, TargetSuffix(kind));
      ParseRender(Job(PathString(input), KindOptions(kind, q), PathString(output)));
      Encode(kind, output, ConversionCommand(kind, q, PathString(input), PathString(output)))
  }

  /** The name the client is offered: the sanitized name's stem followed by the output's
      suffix. */
  function DownloadName(sanitized: string, output: Path): (n: string)
    ensures sanitized != "" && Suffix(output.name) != "" ==>
      Stem(n) == Stem(sanitized) && Suffix(n) == Suffix(output.name)
  {
    var n := Stem(sanitized) + Suffix(output.name);
    // The guard only decides whether the split lemma applies; the name is `n` either way.
    if sanitized != "" && Suffix(output.name) != "" then
      JoinSplits(Stem(sanitized), Suffix(output.name));
      n
    else
      n
  }

  /** The files after the encoder ran: whatever it wrote now sits at the output path. */
  function EncoderEffect(files: map<Path, nat>, output: Path, run: EncoderRun): map<Path, nat>
  {
    match run.written
    case Some(size) => files[output := size]
    case None => files
  }

  /** The text of the `FileNotFoundError` that `stat` raises for a missing path. */
  function NoSuchFileMessage(p: Path): (m: string)
    ensures m != "Conversion failed" && m != "Conversion timeout - file too large or complex"
    ensures |m| > |PathString(p)| + 1 && m[|m| - |PathString(p)| - 1..|m| - 1] == PathString(p)
  {
    var m := "[Errno 2] No such file or directory: '" + PathString(p) + "'";
    assert m[0] == '[';
    assert m[|m| - |PathString(p)| - 1..|m| - 1] == PathString(p);
    m
  }

  /** The error a failed conversion reports. An encoder that returned 0 without leaving
      an output makes the following `stat` raise, which the generic handler reports. */
  function FailureMessage(run: EncoderRun, output: Path): (m: string)
    ensures run.Exited? ==> (m == "Conversion failed" <==> run.returnCode != 0)
    ensures run.TimedOut? ==> m == "Conversion timeout - file too large or complex"
    ensures run.Raised? ==> m == run.message
  {
    match run
    case Exited(code, _) => if code != 0 then "Conversion failed" else NoSuchFileMessage(output)
    case TimedOut(_) => "Conversion timeout - file too large or complex"
    case Raised(message, _) => message
  }

  /** A conversion succeeds when the encoder exited with 0 and a file is at the output path. */
  predicate Converted(run: EncoderRun, files: map<Path, nat>, output: Path)
  {
    run.Exited? && run.returnCode == 0 && output in files
  }

  /** The encoder run through `subprocess.run` with the time limit, as far as the file
      system is concerned. */
  method RunEncoder(fs: FileSystem, invocation: Invocation, output: Path, run: EncoderRun)
    modifies fs
    ensures fs.files == EncoderEffect(old(fs.files), output, run)
  {
    match run.written {
      case Some(size) => fs.Save(output, size);
      case None =>
    }
  }

  /** Removal guarded by an existence check, as every failure branch does for the output. */
  method RemoveIfExists(fs: FileSystem, p: Path)
    modifies fs
    ensures fs.files == old(fs.files) - {p}
  {
    if fs.Exists(p) {
      var _ := fs.Remove(p);
    }
  }

  /** Saving the input and running the encoder leave nothing once both paths are removed. */
  lemma {:induction false} ForgetWrites(files: map<Path, nat>, input: Path, size: nat, output: Path, run: EncoderRun)
    ensures EncoderEffect(files[input := size], output, run) - {input, output} == files - {input, output}
  {
  }

  /** The `try` block from `subprocess.run` on, with its two `except` clauses, for a saved
      input and a chosen output path and command. */
  method EncodeAndRespond(fs: FileSystem, input: Path, output: Path, argv: seq<string>,
                          sanitized: string, run: EncoderRun)
    returns (resp: Response)
    requires input in fs.files
    modifies fs
    ensures var encoded := EncoderEffect(old(fs.files), output, run);
      if Converted(run, encoded, output) then
        resp == FileDownload(output, DownloadName(sanitized, output), "application/octet-stream",
                             NatToString(encoded[output]), Cleanup(input, output)) &&
        fs.files == encoded && input in fs.files && output in fs.files
      else
        resp == JsonError(500, FailureMessage(run, output)) &&
        fs.files == old(fs.files) - {input, output}
  {
    RunEncoder(fs, Invocation(argv, EncoderTimeoutSeconds), output, run);
    match run {
      case Exited(code, _) =>
        if code != 0 {
          var _ := fs.Remove(input);
          RemoveIfExists(fs, output);
          resp := JsonError(500, "Conversion failed");
        } else {
          var convertedSize := fs.Stat(output);
          if convertedSize.None? {
            RemoveIfExists(fs, input);
            RemoveIfExists(fs, output);
            resp := JsonError(500, NoSuchFileMessage(output));
          } else {
            resp := FileDownload(output, DownloadName(sanitized, output), "application/octet-stream",
                                 NatToString(convertedSize.value), Cleanup(input, output));
          }
        }
      case TimedOut(_) =>
        RemoveIfExists(fs, input);
        RemoveIfExists(fs, output);
        resp := JsonError(500, "Conversion timeout - file too large or complex");
      case Raised(message, _) =>
        RemoveIfExists(fs, input);
        RemoveIfExists(fs, output);
        resp := JsonError(500, message);
    }
  }

  /** The handler from `file.save` on, for a validated upload saved at `input`, given what
      `PlanConversion` decides for that path. */
  method SaveAndConvert(fs: FileSystem, input: Path, sanitized: string, size: nat, plan: Plan,
                        run: EncoderRun)
    returns (resp: Response, ran: Option<Invocation>)
    modifies fs
    ensures plan.Unsupported? ==>
        resp == JsonError(400, "Unsupported file format: " + plan.ext) && ran == None &&
        fs.files == old(fs.files) - {input}
    ensures plan.Encode? ==>
        var encoded := EncoderEffect(old(fs.files)[input := size], plan.output, run);
        ran == Some(Invocation(plan.argv, EncoderTimeoutSeconds)) &&
        if Converted(run, encoded, plan.output) then
          resp == FileDownload(plan.output, DownloadName(sanitized, plan.output), "application/octet-stream",
                               NatToString(encoded[plan.output]), Cleanup(input, plan.output)) &&
          fs.files == encoded && input in fs.files && plan.output in fs.files
        else
          resp == JsonError(500, FailureMessage(run, plan.output)) &&
          fs.files == old(fs.files) - {input, plan.output}
  {
    fs.Save(input, size);
    if plan.Unsupported? {
      var _ := fs.Remove(input);
      return JsonError(400, "Unsupported file format: " + plan.ext), None;
    }
    ran := Some(Invocation(plan.argv, EncoderTimeoutSeconds));
    ForgetWrites(old(fs.files), input, size, plan.output, run);
    resp := EncodeAndRespond(fs, input, plan.output, plan.argv, sanitized, run);
  }

  /** The handler itself, up to returning its response. */
  method Convert(fs: FileSystem, folder: string, req: Request, token: string,
                 secureFilename: string -> string, run: EncoderRun)
    returns (resp: Response, ran: Option<Invocation>)
    requires InModelledRange(Quality(req))
    requires '/' !in token
    requires req.file.Some? ==> '/' !in secureFilename(req.file.value.filename)
    modifies fs
    ensures resp.Status() == 400 <==> ran == None
    ensures resp.Status() == 200 <==> resp.FileDownload?
    ensures req.file == None ==>
      resp == JsonError(400, "No file provided") && ran == None && fs.files == old(fs.files)
    ensures req.file.Some? && req.file.value.filename == "" ==>
      resp == JsonError(400, "No file selected") && ran == None && fs.files == old(fs.files)
    ensures req.file.Some? && req.file.value.filename != "" ==>
      var sanitized := secureFilename(req.file.value.filename);
      var input := InputPath(folder, token, sanitized);
      var plan := PlanConversion(input, Quality(req));
      (plan.Unsupported? ==>
        resp == JsonError(400, "Unsupported file format: " + plan.ext) && ran == None &&
        fs.files == old(fs.files) - {input}) &&
      (plan.Encode? ==>
        var encoded := EncoderEffect(old(fs.files)[input := req.file.value.size], plan.output, run);
        ran == Some(Invocation(plan.argv, EncoderTimeoutSeconds)) &&
        if Converted(run, encoded, plan.output) then
          resp == FileDownload(plan.output, DownloadName(sanitized, plan.output), "application/octet-stream",
                               NatToString(encoded[plan.output]), Cleanup(input, plan.output)) &&
          fs.files == encoded && input in fs.files && plan.output in fs.files
        else
          resp == JsonError(500, FailureMessage(run, plan.output)) &&
          fs.files == old(fs.files) - {input, plan.output})
  {
    if req.file.None? {
      return JsonError(400, "No file provided"), None;
    }
    var upload := req.file.value;
    if upload.filename == "" {
      return JsonError(400, "No file selected"), None;
    }
    var quality := Quality(req);
    var sanitized := secureFilename(upload.filename);
    var input := InputPath(folder, token, sanitized);
    var plan := PlanConversion(input, quality);
    resp, ran := SaveAndConvert(fs, input, sanitized, upload.size, plan, run);
  }

  /** The `cleanup` registered with `response.call_on_close`: remove the input, then the
      output, swallowing the first error. A missing input stops it before the output. */
  method RunCleanup(fs: FileSystem, c: Cleanup)
    modifies fs
    ensures c.input in old(fs.files) ==> fs.files == old(fs.files) - {c.input, c.output}
    ensures c.input !in old(fs.files) ==> fs.files == old(fs.files)
  {
    var removedInput := fs.Remove(c.input);
    if removedInput {
      var _ := fs.Remove(c.output);
    }
  }

  /** One request from start to end: the handler, then, for a file response, the cleanup
      that runs when the response is closed. Nothing the request saved is left behind, and
      nothing else in the directory is touched. */
  method HandleRequest(fs: FileSystem, folder: string, req: Request, token: string,
                       secureFilename: string -> string, run: EncoderRun)
    returns (resp: Response, ran: Option<Invocation>)
    requires InModelledRange(Quality(req))
    requires '/' !in token
    requires req.file.Some? ==> '/' !in secureFilename(req.file.value.filename)
    modifies fs
    ensures resp.Status() == 400 <==> ran == None
    ensures resp.Status() == 200 <==> resp.FileDownload?
    ensures req.file == None || req.file.value.filename == "" ==> fs.files == old(fs.files)
    ensures req.file.Some? && req.file.value.filename != "" ==>
      var input := InputPath(folder, token, secureFilename(req.file.value.filename));
      var plan := PlanConversion(input, Quality(req));
      (plan.Unsupported? ==> fs.files == old(fs.files) - {input}) &&
      (plan.Encode? ==> fs.files == old(fs.files) - {input, plan.output})
  {
    resp, ran := Convert(fs, folder, req, token, secureFilename, run);
    if resp.FileDownload? {
      ghost var upload := req.file.value;
      ghost var input := InputPath(folder, token, secureFilename(upload.filename));
      ghost var plan := PlanConversion(input, Quality(req));
      assert plan.Encode? && resp.onClose == Cleanup(input, plan.output);
      ForgetWrites(old(fs.files), input, upload.size, plan.output, run);
      RunCleanup(fs, resp.onClose);
    }
  }

  /** The kind depends on the sanitized name alone, and the download name drops the
      token: the output file is `token_` followed by the download name, which is the
      sanitized name's stem with the target suffix. A token without a dot and a name
      that does not start with a dot (`secure_filename` strips leading dots) are needed. */
  lemma {:induction false} DownloadNameDropsToken(folder: string, token: string, sanitized: string, q: int)
    requires '.' !in token
    requires sanitized == "" || sanitized[0] != '.'
    requires InModelledRange(q)
    ensures var plan := PlanConversion(InputPath(folder, token, sanitized), q);
      (plan.Unsupported? <==> Classify(Lower(Suffix(sanitized))) == None) &&
      (plan.Encode? ==>
        Classify(Lower(Suffix(sanitized))) == Some(plan.kind) &&
        DownloadName(sanitized, plan.output) == Stem(sanitized) + TargetSuffix(plan.kind) &&
        plan.output == Path(folder, token + "_" + DownloadName(sanitized, plan.output)))
  {
    var input := InputPath(folder, token, sanitized);
    SuffixAfterPrefix(token + "_", sanitized);
    var plan := PlanConversion(input, q);
    if plan.Encode? {
      WithSuffixAfterPrefix(token + "_", sanitized, TargetSuffix(plan.kind));
      assert plan.output.name == token + "_" + (Stem(sanitized) + TargetSuffix(plan.kind));
    }
  }

  /** An upload named `stem + suffix` (a stem that does not start with a dot) whose
      suffix is allowed: its kind, its download name and its output path, whatever the token. */
  lemma {:induction false} AcceptedUpload(folder: string, token: string, name: string, stem: string,
                                          suffix: string, kind: Kind, download: string, q: int)
    requires '.' !in token
    requires name == stem + suffix && stem != "" && stem[0] != '.' && IsSuffix(suffix)
    requires Classify(Lower(suffix)) == Some(kind)
    requires download == stem + TargetSuffix(kind)
    requires InModelledRange(q)
    ensures Suffix(InputPath(folder, token, name).name) == suffix
    ensures var plan := PlanConversion(InputPath(folder, token, name), q);
      plan.Encode? && plan.kind == kind && DownloadName(name, plan.output) == download &&
      plan.output == Path(folder, token + "_" + download)
  {
    JoinSplits(stem, suffix);
    SuffixAfterPrefix(token + "_", name);
    DownloadNameDropsToken(folder, token, name, q);
  }

  /** An upload named `stem + suffix` whose suffix is not allowed is rejected with the
      lower-cased suffix, whatever the token. */
  lemma {:induction false} RejectedUpload(folder: string, token: string, name: string, stem: string,
                                          suffix: string, q: int)
    requires '.' !in token
    requires name == stem + suffix && stem != "" && stem[0] != '.' && IsSuffix(suffix)
    requires Classify(Lower(suffix)) == None
    requires InModelledRange(q)
    ensures PlanConversion(InputPath(folder, token, name), q) == Unsupported(Lower(suffix))
  {
    JoinSplits(stem, suffix);
    SuffixAfterPrefix(token + "_", name);
    DownloadNameDropsToken(folder, token, name, q);
  }

  /** `movie.mp4` becomes the video download `movie.webm`, whatever the token. */
  lemma {:induction false} MovieDownloadName(folder: string, token: string, q: int)
    requires '.' !in token
    requires InModelledRange(q)
    ensures var plan := PlanConversion(InputPath(folder, token, "movie.mp4"), q);
      plan.Encode? && plan.kind == Video && DownloadName("movie.mp4", plan.output) == "movie.webm"
  {
    assert Lower(".mp4") == ".mp4";
    AcceptedUpload(folder, token, "movie.mp4", "movie", ".mp4", Video, "movie.webm", q);
  }

  /** `photo.png` becomes the image download `photo.webp`, whatever the token. */
  lemma {:induction false} PhotoDownloadName(folder: string, token: string, q: int)
    requires '.' !in token
    requires InModelledRange(q)
    ensures var plan := PlanConversion(InputPath(folder, token, "photo.png"), q);
      plan.Encode? && plan.kind == Image && DownloadName("photo.png", plan.output) == "photo.webp"
  {
    assert Lower(".png") == ".png";
    AcceptedUpload(folder, token, "photo.png", "photo", ".png", Image, "photo.webp", q);
  }

  /** A `.webm` upload is converted onto its own path: the output path is the input path. */
  lemma {:induction false} WebmUploadIsItsOwnOutput(folder: string, token: string, q: int)
    requires '.' !in token
    requires InModelledRange(q)
    ensures var input := InputPath(folder, token, "clip.webm");
      var plan := PlanConversion(input, q);
      plan.Encode? && plan.kind == Video && plan.output == input
  {
    assert Lower(".webm") == ".webm";
    AcceptedUpload(folder, token, "clip.webm", "clip", ".webm", Video, "clip.webm", q);
  }

  /** With the suffix in capitals the output path differs from the input path, since
      `with_suffix` replaces `.WEBM` by `.webm`. */
  lemma {:induction false} UpperCaseWebmGetsNewPath(folder: string, token: string, q: int)
    requires '.' !in token
    requires InModelledRange(q)
    ensures var input := InputPath(folder, token, "clip.WEBM");
      var plan := PlanConversion(input, q);
      plan.Encode? && plan.kind == Video && plan.output != input &&
      plan.output == Path(folder, token + "_" + "clip.webm")
  {
    assert Lower(".WEBM") == ".webm";
    assert ".WEBM" != ".webm";
    AcceptedUpload(folder, token, "clip.WEBM", "clip", ".WEBM", Video, "clip.webm", q);
  }

  /** A `.txt` upload is rejected, and the message names the extension. */
  lemma {:induction false} TextUploadIsRejected(folder: string, token: string, q: int)
    requires '.' !in token
    requires InModelledRange(q)
    ensures PlanConversion(InputPath(folder, token, "notes.txt"), q) == Unsupported(".txt")
  {
    assert Lower(".txt") == ".txt";
    RejectedUpload(folder, token, "notes.txt", "notes", ".txt", q);
  }

  /** Without the leading-dot guarantee the token-free relation fails: a sanitized name
      `.mp4` is classified as video, yet its stem is the whole name, so the download name
      is `.mp4.webm` while the output file is `token_.webm`. */
  lemma {:induction false} LeadingDotNameKeepsWholeStem(folder: string, token: string, q: int)
    requires '.' !in token
    requires InModelledRange(q)
    ensures var plan := PlanConversion(InputPath(folder, token, ".mp4"), q);
      plan.Encode? && plan.kind == Video &&
      DownloadName(".mp4", plan.output) == ".mp4" + ".webm" &&
      plan.output.name == token + "_" + ".webm"
  {
    assert Lower(".mp4") == ".mp4";
    assert Stem(".mp4") == ".mp4" by {
      LastDotIndex(".mp4", 0);
    }
    JoinSplits(token + "_", ".mp4");
    var plan := PlanConversion(InputPath(folder, token, ".mp4"), q);
    assert plan.output.name == token + "_" + ".webm" by {
      StemSuffixSplit(plan.output.name);
    }
  }
}
