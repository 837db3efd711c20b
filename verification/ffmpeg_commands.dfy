/** Argument lists for the three engine invocations
    (video_to_audio/ffmpeg_commands.py). */
module FfmpegCommands {

  import opened Wrappers
  import Decimal
  import Config

  /** The `-af` value of the silence-removal step. */
  const SilenceFilter: string :=
    "silenceremove=stop_periods=-1:stop_duration=" + Config.SilenceDuration
    + ":stop_threshold=" + Config.SilenceThreshold

  /** The `-af` value of the single-pass loudness normalisation step. */
  const LoudnormFilter: string :=
    "loudnorm=I=" + Config.TargetLufs + ":LRA=" + Config.LoudnessRange + ":TP=" + Config.TruePeak

  /** The two filters as the engine receives them. */
  lemma FilterTexts()
    ensures SilenceFilter == "silenceremove=stop_periods=-1:stop_duration=1.2:stop_threshold=-55dB"
    ensures LoudnormFilter == "loudnorm=I=-16:LRA=11:TP=-1.5"
  {
    SilenceFilterText();
  }

  /** The silence filter on its own: evaluating both texts in one proof
      costs the solver more than twice as much as evaluating them apart. */
  lemma SilenceFilterText()
    ensures SilenceFilter == "silenceremove=stop_periods=-1:stop_duration=1.2:stop_threshold=-55dB"
  {
  }

  /** `0:a:<track-1>`: the engine's 0-based selector for a 1-based track. */
  function TrackSelector(track: int): (selector: string) {
    "0:a:" + Decimal.IntToString(track - 1)
  }

  /** The shape every builder keeps: the engine, `-i` and the input first,
      `-y` and the output last. */
  predicate Layout(cmd: seq<string>, ffmpeg: string, input: string, output: string) {
    && |cmd| >= 5
    && cmd[0] == ffmpeg && cmd[1] == "-i" && cmd[2] == input
    && cmd[|cmd| - 2] == "-y" && cmd[|cmd| - 1] == output
  }

  /** The encoder options all three builders pass, at the given position. */
  predicate EncodesAacAt(cmd: seq<string>, k: nat) {
    && k + 4 <= |cmd|
    && cmd[k] == "-c:a" && cmd[k + 1] == Config.AudioCodec
    && cmd[k + 2] == "-b:a" && cmd[k + 3] == Config.AudioBitrate
  }

  /** `build_base_conversion_command`. */
  function BuildBaseConversionCommand(ffmpeg: string, input: string, output: string, track: int): (cmd: seq<string>)
    ensures |cmd| == 12 && Layout(cmd, ffmpeg, input, output)
    ensures cmd[3] == "-vn" && EncodesAacAt(cmd, 4) && cmd[8] == "-map"
    ensures track == 1 ==> cmd[9] == "0:a:0"
  {
    Decimal.SmallNumbers();
    [ffmpeg, "-i", input, "-vn", "-c:a", Config.AudioCodec, "-b:a", Config.AudioBitrate,
     "-map", TrackSelector(track), "-y", output]
  }

  /** `build_silence_removal_command`. */
  function BuildSilenceRemovalCommand(ffmpeg: string, input: string, output: string): (cmd: seq<string>)
    ensures |cmd| == 11 && Layout(cmd, ffmpeg, input, output)
    ensures cmd[3] == "-af" && cmd[4] == SilenceFilter
    ensures EncodesAacAt(cmd, 5)
  {
    [ffmpeg, "-i", input, "-af", SilenceFilter, "-c:a", Config.AudioCodec, "-b:a", Config.AudioBitrate,
     "-y", output]
  }

  /** `build_normalization_command`. */
  function BuildNormalizationCommand(ffmpeg: string, input: string, output: string): (cmd: seq<string>)
    ensures |cmd| == 11 && Layout(cmd, ffmpeg, input, output)
    ensures cmd[3] == "-af" && cmd[4] == LoudnormFilter
    ensures EncodesAacAt(cmd, 5)
  {
    [ffmpeg, "-i", input, "-af", LoudnormFilter, "-c:a", Config.AudioCodec, "-b:a", Config.AudioBitrate,
     "-y", output]
  }

  /** The option words, as opposed to the paths and values they carry. */
  function Options(cmd: seq<string>): seq<string>
    requires |cmd| >= 5
  {
    cmd[3..|cmd| - 2]
  }

  /** Only the base command drops video and maps a stream; only the other two
      carry an audio filter. */
  lemma OptionPresence(ffmpeg: string, input: string, output: string, track: int)
    ensures "-vn" in Options(BuildBaseConversionCommand(ffmpeg, input, output, track))
    ensures "-map" in Options(BuildBaseConversionCommand(ffmpeg, input, output, track))
    ensures "-af" !in Options(BuildBaseConversionCommand(ffmpeg, input, output, track))
    ensures "-af" in Options(BuildSilenceRemovalCommand(ffmpeg, input, output))
    ensures "-vn" !in Options(BuildSilenceRemovalCommand(ffmpeg, input, output))
    ensures "-map" !in Options(BuildSilenceRemovalCommand(ffmpeg, input, output))
    ensures "-af" in Options(BuildNormalizationCommand(ffmpeg, input, output))
    ensures "-vn" !in Options(BuildNormalizationCommand(ffmpeg, input, output))
    ensures "-map" !in Options(BuildNormalizationCommand(ffmpeg, input, output))
  {
    BaseOptions(ffmpeg, input, output, track);
    FilterOptions(BuildSilenceRemovalCommand(ffmpeg, input, output));
    FilterOptions(BuildNormalizationCommand(ffmpeg, input, output));
  }

  lemma BaseOptions(ffmpeg: string, input: string, output: string, track: int)
    ensures Options(BuildBaseConversionCommand(ffmpeg, input, output, track))
            == ["-vn", "-c:a", "aac", "-b:a", "160k", "-map", TrackSelector(track)]
    ensures "-af" !in Options(BuildBaseConversionCommand(ffmpeg, input, output, track))
  {
    assert TrackSelector(track)[0] == '0';
  }

  lemma FilterOptions(cmd: seq<string>)
    requires |cmd| == 11 && cmd[3] == "-af" && EncodesAacAt(cmd, 5)
    requires |cmd[4]| > 4
    ensures Options(cmd) == ["-af", cmd[4], "-c:a", "aac", "-b:a", "160k"]
    ensures "-vn" !in Options(cmd) && "-map" !in Options(cmd)
  {
  }

  /** One engine invocation, described by what it does rather than its words. */
  datatype Invocation =
    | Extract(input: string, output: string, track: int)
    | RemoveSilence(input: string, output: string)
    | Normalize(input: string, output: string)

  /** The argument list the source builds for an invocation. */
  function Build(ffmpeg: string, inv: Invocation): (cmd: seq<string>) {
    match inv
    case Extract(i, o, t) => BuildBaseConversionCommand(ffmpeg, i, o, t)
    case RemoveSilence(i, o) => BuildSilenceRemovalCommand(ffmpeg, i, o)
    case Normalize(i, o) => BuildNormalizationCommand(ffmpeg, i, o)
  }

  /** Recognises an argument list of one of the three shapes and recovers the
      engine path and the invocation it performs. */
  function Parse(cmd: seq<string>): (parsed: Option<(string, Invocation)>) {
    if |cmd| == 12 && cmd[1] == "-i" && cmd[3] == "-vn" && cmd[4] == "-c:a" && cmd[5] == Config.AudioCodec
       && cmd[6] == "-b:a" && cmd[7] == Config.AudioBitrate && cmd[8] == "-map" && cmd[10] == "-y"
       && |cmd[9]| >= 4 && cmd[9][..4] == "0:a:" && Decimal.ParseInt(cmd[9][4..]).Some?
    then Some((cmd[0], Extract(cmd[2], cmd[11], Decimal.ParseInt(cmd[9][4..]).value + 1)))
    else if |cmd| == 11 && cmd[1] == "-i" && cmd[3] == "-af" && cmd[5] == "-c:a" && cmd[6] == Config.AudioCodec
       && cmd[7] == "-b:a" && cmd[8] == Config.AudioBitrate && cmd[9] == "-y"
    then
      if cmd[4] == SilenceFilter then Some((cmd[0], RemoveSilence(cmd[2], cmd[10])))
      else if cmd[4] == LoudnormFilter then Some((cmd[0], Normalize(cmd[2], cmd[10])))
      else None
    else None
  }

  lemma FiltersDiffer()
    ensures SilenceFilter != LoudnormFilter
  {
    FilterTexts();
    var silence := "silenceremove=stop_periods=-1:stop_duration=1.2:stop_threshold=-55dB";
    var loudnorm := "loudnorm=I=-16:LRA=11:TP=-1.5";
    assert |silence| != |loudnorm|;
  }

  /** Every built command is recognised as the invocation it was built from. */
  lemma ParseBuild(ffmpeg: string, inv: Invocation)
    ensures Parse(Build(ffmpeg, inv)) == Some((ffmpeg, inv))
  {
    match inv
    case Extract(i, o, t) =>
      ParseSelector(t);
    case RemoveSilence(i, o) =>
      FiltersDiffer();
    case Normalize(i, o) =>
      FiltersDiffer();
  }

  /** Every recognised command is exactly what the builder produces for it. */
  lemma BuildParse(cmd: seq<string>)
    requires Parse(cmd).Some?
    ensures Build(Parse(cmd).value.0, Parse(cmd).value.1) == cmd
  {
    var inv := Parse(cmd).value.1;
    match inv
    case Extract(_, _, _) =>
      SelectorParse(cmd[9]);
      BaseShape(cmd, TrackSelector(inv.track));
    case RemoveSilence(_, _) =>
      FilterShape(cmd, SilenceFilter);
    case Normalize(_, _) =>
      FilterShape(cmd, LoudnormFilter);
  }

  /** The selector of track `t` is read back as `t`. */
  lemma ParseSelector(t: int)
    ensures var sel := TrackSelector(t);
            && |sel| >= 4 && sel[..4] == "0:a:" && Decimal.ParseInt(sel[4..]) == Some(t - 1)
  {
    var sel := TrackSelector(t);
    Decimal.ParseIntToString(t - 1);
    assert sel[4..] == Decimal.IntToString(t - 1);
  }

  /** A selector that is read back is the selector of the track it names. */
  lemma SelectorParse(sel: string)
    requires |sel| >= 4 && sel[..4] == "0:a:" && Decimal.ParseInt(sel[4..]).Some?
    ensures TrackSelector(Decimal.ParseInt(sel[4..]).value + 1) == sel
  {
    var digits := sel[4..];
    Decimal.IntToStringParse(digits, Decimal.ParseInt(digits).value);
    assert sel == sel[..4] + digits;
  }

  lemma BaseShape(cmd: seq<string>, selector: string)
    requires |cmd| == 12 && cmd[1] == "-i" && cmd[3] == "-vn" && cmd[4] == "-c:a" && cmd[5] == Config.AudioCodec
    requires cmd[6] == "-b:a" && cmd[7] == Config.AudioBitrate && cmd[8] == "-map" && cmd[9] == selector
    requires cmd[10] == "-y"
    ensures cmd == [cmd[0], "-i", cmd[2], "-vn", "-c:a", Config.AudioCodec, "-b:a", Config.AudioBitrate,
                    "-map", selector, "-y", cmd[11]]
  {
  }

  lemma FilterShape(cmd: seq<string>, filter: string)
    requires |cmd| == 11 && cmd[1] == "-i" && cmd[3] == "-af" && cmd[4] == filter && cmd[5] == "-c:a"
    requires cmd[6] == Config.AudioCodec && cmd[7] == "-b:a" && cmd[8] == Config.AudioBitrate && cmd[9] == "-y"
    ensures cmd == [cmd[0], "-i", cmd[2], "-af", filter, "-c:a", Config.AudioCodec, "-b:a", Config.AudioBitrate,
                    "-y", cmd[10]]
  {
  }
}
