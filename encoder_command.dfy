/** The encoder command line the handler builds. A command is the fixed
    `ffmpeg -i <input>` head, a list of option/value pairs, and the fixed `-y <output>`
    tail; `ParseCommand` reads such a line back into its parts. */
module EncoderCommand {
  import opened Wrappers
  import opened Decimal
  import opened MediaFormats

  /** What a command tells the encoder: where to read, which options, where to write. */
  datatype Job = Job(input: string, options: seq<(string, string)>, output: string)

  /** Option/value pairs laid out one after the other. */
  function Flatten(options: seq<(string, string)>): (args: seq<string>)
    ensures |args| == 2 * |options|
  {
    if options == [] then [] else [options[0].0, options[0].1] + Flatten(options[1..])
  }

  /** Pairs up consecutive arguments; `None` when one is left over. */
  function Unflatten(args: seq<string>): Option<seq<(string, string)>>
  {
    if |args| == 0 then Some([])
    else if |args| == 1 then None
    else match Unflatten(args[2..])
      case Some(rest) => Some([(args[0], args[1])] + rest)
      case None => None
  }

  /** The argument list handed to `subprocess.run`. */
  function Render(job: Job): (argv: seq<string>)
    ensures |argv| == 5 + 2 * |job.options|
    ensures argv[..3] == ["ffmpeg", "-i", job.input]
    ensures argv[|argv| - 2..] == ["-y", job.output]
  {
    ["ffmpeg", "-i", job.input] + Flatten(job.options) + ["-y", job.output]
  }

  /** Reads an argument list of the shape `Render` produces back into a job. */
  function ParseCommand(argv: seq<string>): Option<Job>
  {
    if |argv| >= 5 && argv[0] == "ffmpeg" && argv[1] == "-i" && argv[|argv| - 2] == "-y" then
      match Unflatten(argv[3..|argv| - 2])
      case Some(options) => Some(Job(argv[2], options, argv[|argv| - 1]))
      case None => None
    else None
  }

  lemma {:induction false} UnflattenFlatten(options: seq<(string, string)>)
    ensures Unflatten(Flatten(options)) == Some(options)
  {
    if options != [] {
      var args := Flatten(options);
      assert args[2..] == Flatten(options[1..]);
      UnflattenFlatten(options[1..]);
      assert [(options[0].0, options[0].1)] + options[1..] == options;
    }
  }

  lemma {:induction false} FlattenUnflatten(args: seq<string>)
    requires Unflatten(args).Some?
    ensures Flatten(Unflatten(args).value) == args
  {
    if |args| >= 2 {
      FlattenUnflatten(args[2..]);
      var options := Unflatten(args).value;
      assert options[1..] == Unflatten(args[2..]).value;
    }
  }

  /** Every job is read back from its command line unchanged. */
  lemma ParseRender(job: Job)
    ensures ParseCommand(Render(job)) == Some(job)
  {
    var argv := Render(job);
    assert argv[3..|argv| - 2] == Flatten(job.options);
    UnflattenFlatten(job.options);
  }

  /** A command line that parses is exactly the rendering of what it parses to. */
  lemma RenderParse(argv: seq<string>)
    requires ParseCommand(argv).Some?
    ensures Render(ParseCommand(argv).value) == argv
  {
    var middle := argv[3..|argv| - 2];
    FlattenUnflatten(middle);
    assert argv == argv[..3] + middle + argv[|argv| - 2..];
  }

  /** The `i`-th option sits at positions `2 * i` and `2 * i + 1` of the flattened list. */
  lemma {:induction false} FlattenAt(options: seq<(string, string)>, i: nat)
    requires i < |options|
    ensures Flatten(options)[2 * i] == options[i].0 && Flatten(options)[2 * i + 1] == options[i].1
  {
    if i > 0 {
      FlattenAt(options[1..], i - 1);
    }
  }

  /** The value given to the first occurrence of `flag`. */
  function OptionValue(options: seq<(string, string)>, flag: string): Option<string>
  {
    if options == [] then None
    else if options[0].0 == flag then Some(options[0].1)
    else OptionValue(options[1..], flag)
  }

  /** An option the job carries appears on the command line as the flag immediately
      followed by its value. */
  lemma {:induction false} OptionAdjacent(options: seq<(string, string)>, flag: string) returns (k: nat)
    requires OptionValue(options, flag).Some?
    ensures k + 1 < 2 * |options|
    ensures Flatten(options)[k] == flag && Flatten(options)[k + 1] == OptionValue(options, flag).value
  {
    if options[0].0 == flag {
      k := 0;
    } else {
      var j := OptionAdjacent(options[1..], flag);
      k := j + 2;
    }
  }

  /** The fixed VP9/Opus options around the CRF: the codec, the CRF's decimal
      spelling, bitrate 0, speed 5, Opus audio at 128k, and no WebP quality. */
  function VideoOptions(crf: nat): (o: seq<(string, string)>)
    ensures |o| == 6
    ensures OptionValue(o, "-c:v") == Some("libvpx-vp9")
    ensures OptionValue(o, "-crf") == Some(NatToString(crf))
    ensures OptionValue(o, "-b:v") == Some("0")
    ensures OptionValue(o, "-cpu-used") == Some("5")
    ensures OptionValue(o, "-c:a") == Some("libopus")
    ensures OptionValue(o, "-b:a") == Some("128k")
    ensures OptionValue(o, "-quality") == None
  {
    var opts := [("-c:v", "libvpx-vp9"), ("-crf", NatToString(crf)), ("-b:v", "0"),
                 ("-cpu-used", "5"), ("-c:a", "libopus"), ("-b:a", "128k")];
    assert OptionValue(opts[6..], "-quality") == None;
    assert OptionValue(opts[5..], "-quality") == None && OptionValue(opts[5..], "-b:a") == Some("128k");
    assert OptionValue(opts[4..], "-quality") == None && OptionValue(opts[4..], "-b:a") == Some("128k");
    assert OptionValue(opts[4..], "-c:a") == Some("libopus");
    assert OptionValue(opts[3..], "-quality") == None && OptionValue(opts[3..], "-b:a") == Some("128k");
    assert OptionValue(opts[3..], "-c:a") == Some("libopus") && OptionValue(opts[3..], "-cpu-used") == Some("5");
    assert OptionValue(opts[2..], "-quality") == None && OptionValue(opts[2..], "-b:a") == Some("128k");
    assert OptionValue(opts[2..], "-c:a") == Some("libopus") && OptionValue(opts[2..], "-cpu-used") == Some("5");
    assert OptionValue(opts[2..], "-b:v") == Some("0");
    assert OptionValue(opts[1..], "-quality") == None && OptionValue(opts[1..], "-b:a") == Some("128k");
    assert OptionValue(opts[1..], "-c:a") == Some("libopus") && OptionValue(opts[1..], "-cpu-used") == Some("5");
    assert OptionValue(opts[1..], "-b:v") == Some("0");
    opts
  }

  /** The fixed WebP options around the quality: the codec, the quality's decimal
      spelling, the default preset, and no CRF. */
  function ImageOptions(quality: nat): (o: seq<(string, string)>)
    ensures |o| == 3
    ensures OptionValue(o, "-c:v") == Some("libwebp")
    ensures OptionValue(o, "-quality") == Some(NatToString(quality))
    ensures OptionValue(o, "-preset") == Some("default")
    ensures OptionValue(o, "-crf") == None
  {
    var opts := [("-c:v", "libwebp"), ("-quality", NatToString(quality)), ("-preset", "default")];
    assert OptionValue(opts[3..], "-crf") == None;
    assert OptionValue(opts[2..], "-crf") == None && OptionValue(opts[2..], "-preset") == Some("default");
    assert OptionValue(opts[1..], "-crf") == None;
    opts
  }

  /** The encoder options for a kind and a quality reduction: VP9 at CRF `Crf(q)` for
      video, WebP at quality `WebpQuality(q)` for images, each without the other's
      quality flag. */
  function KindOptions(k: Kind, q: int): (o: seq<(string, string)>)
    requires InModelledRange(q)
    ensures |o| == if k == Video then 6 else 3
    ensures OptionValue(o, "-c:v") == Some(if k == Video then "libvpx-vp9" else "libwebp")
    ensures k == Video ==>
      OptionValue(o, "-crf") == Some(NatToString(Crf(q))) && OptionValue(o, "-quality") == None
    ensures k == Image ==>
      OptionValue(o, "-quality") == Some(NatToString(WebpQuality(q))) && OptionValue(o, "-crf") == None
  {
    match k
    case Video => VideoOptions(Crf(q))
    case Image => ImageOptions(WebpQuality(q))
  }

  /** The command line for converting `input` into `output`: it reads back as exactly
      that input, the kind's options and that output. */
  function ConversionCommand(k: Kind, q: int, input: string, output: string): (argv: seq<string>)
    requires InModelledRange(q)
    ensures ParseCommand(argv) == Some(Job(input, KindOptions(k, q), output))
  {
    var job := Job(input, KindOptions(k, q), output);
    ParseRender(job);
    Render(job)
  }

  /** A video command reads `input`, writes `output` with overwriting, and asks for VP9 at
      CRF `Crf(q)` with bitrate 0, speed 5 and Opus audio at 128k; `-crf` is followed
      immediately by the CRF's decimal spelling. The line has exactly these 17 entries,
      so no flag is repeated or added. */
  lemma VideoCommandSays(q: int, input: string, output: string)
    requires InModelledRange(q)
    ensures var argv := ConversionCommand(Video, q, input, output);
      argv[..3] == ["ffmpeg", "-i", input] && argv[|argv| - 2..] == ["-y", output] &&
      |argv| == 17 &&
      argv[3..7] == ["-c:v", "libvpx-vp9", "-crf", NatToString(Crf(q))] &&
      argv[7..15] == ["-b:v", "0", "-cpu-used", "5", "-c:a", "libopus", "-b:a", "128k"] &&
      ParseNat(argv[6]) == Some(Crf(q))
    ensures var job := ParseCommand(ConversionCommand(Video, q, input, output));
      job.Some? && job.value.input == input && job.value.output == output &&
      OptionValue(job.value.options, "-c:v") == Some("libvpx-vp9") &&
      OptionValue(job.value.options, "-crf") == Some(NatToString(Crf(q))) &&
      OptionValue(job.value.options, "-b:v") == Some("0") &&
      OptionValue(job.value.options, "-cpu-used") == Some("5") &&
      OptionValue(job.value.options, "-c:a") == Some("libopus") &&
      OptionValue(job.value.options, "-b:a") == Some("128k") &&
      OptionValue(job.value.options, "-quality") == None
  {
    var job := Job(input, VideoOptions(Crf(q)), output);
    ParseNatToString(Crf(q));
    var argv := Render(job);
    assert argv[3..7] == Flatten(job.options)[..4];
    FlattenAt(job.options, 2);
    FlattenAt(job.options, 3);
    FlattenAt(job.options, 4);
    FlattenAt(job.options, 5);
    assert argv[7..15] == Flatten(job.options)[4..12];
  }

  /** An image command reads `input`, writes `output` with overwriting, and asks for WebP
      at quality `WebpQuality(q)` with the default preset; `-quality` is followed
      immediately by that number's decimal spelling. The line has exactly these 11
      entries. */
  lemma ImageCommandSays(q: int, input: string, output: string)
    requires InModelledRange(q)
    ensures var argv := ConversionCommand(Image, q, input, output);
      argv[..3] == ["ffmpeg", "-i", input] && argv[|argv| - 2..] == ["-y", output] &&
      |argv| == 11 &&
      argv[3..7] == ["-c:v", "libwebp", "-quality", NatToString(WebpQuality(q))] &&
      argv[7..9] == ["-preset", "default"] &&
      ParseNat(argv[6]) == Some(WebpQuality(q))
    ensures var job := ParseCommand(ConversionCommand(Image, q, input, output));
      job.Some? && job.value.input == input && job.value.output == output &&
      OptionValue(job.value.options, "-c:v") == Some("libwebp") &&
      OptionValue(job.value.options, "-quality") == Some(NatToString(WebpQuality(q))) &&
      OptionValue(job.value.options, "-preset") == Some("default") &&
      OptionValue(job.value.options, "-crf") == None
  {
    var job := Job(input, ImageOptions(WebpQuality(q)), output);
    ParseNatToString(WebpQuality(q));
    var argv := Render(job);
    assert argv[3..7] == Flatten(job.options)[..4];
    FlattenAt(job.options, 2);
    assert argv[7..9] == Flatten(job.options)[4..6];
  }

  /** The quality setting always reaches an image command: two different reductions give
      two different command lines. */
  lemma ImageCommandsDiffer(q1: int, q2: int, input: string, output: string)
    requires InModelledRange(q1) && InModelledRange(q2) && q1 != q2
    ensures ConversionCommand(Image, q1, input, output) != ConversionCommand(Image, q2, input, output)
  {
    ImageCommandSays(q1, input, output);
    ImageCommandSays(q2, input, output);
  }
}
