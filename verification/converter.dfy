/** The conversion pipeline (video_to_audio/converter.py): running one engine
    command, deleting temporary files, and chaining the stages of one job. */
module Converter {

  import opened Wrappers
  import opened Text
  import opened FileUtils
  import opened FfmpegCommands

  /** What one engine run reports: its exit status and standard error, or
      the exception starting it raised. */
  datatype EngineReply =
    | Exited(returncode: int, stderr: string)
    | BinaryNotFound
    | Raised(message: string)

  /** The engine, as a function from an argument list to its reply. */
  type Engine = seq<string> -> EngineReply

  /** The `(success, error_message)` pair the conversion functions return. */
  datatype Status = Status(success: bool, message: string)

  /** How many trailing lines of the engine's standard error are kept. */
  const DiagnosticLines: nat := 5

  /** The error text of a failed run: the stripped standard error, cut down to
      its last five lines when it has more. */
  function Diagnostic(stderr: string): (d: string)
    ensures var lines := Split(Strip(stderr));
            && (|lines| <= DiagnosticLines ==> d == Strip(stderr))
            && (|lines| > DiagnosticLines ==> Split(d) == lines[|lines| - DiagnosticLines..])
    ensures |Split(d)| <= DiagnosticLines
    ensures |d| <= |Strip(stderr)| && d == Strip(stderr)[|Strip(stderr)| - |d|..]
  {
    LastLinesFacts(Strip(stderr));
    LastLines(Strip(stderr))
  }

  /** A text cut down to its last five lines when it has more. */
  function LastLines(msg: string): (tail: string) {
    var lines := Split(msg);
    if |lines| > DiagnosticLines then Join(lines[|lines| - DiagnosticLines..]) else msg
  }

  lemma LastLinesFacts(msg: string)
    ensures var lines := Split(msg);
            var d := LastLines(msg);
            && (|lines| <= DiagnosticLines ==> d == msg)
            && (|lines| > DiagnosticLines ==> Split(d) == lines[|lines| - DiagnosticLines..])
            && |Split(d)| <= DiagnosticLines
            && |d| <= |msg| && d == msg[|msg| - |d|..]
  {
    var lines := Split(msg);
    if |lines| > DiagnosticLines {
      var tail := lines[|lines| - DiagnosticLines..];
      assert LastLines(msg) == Join(tail);
      TailOfLines(msg, tail);
    } else {
      assert LastLines(msg) == msg;
      assert msg[|msg| - |msg|..] == msg;
    }
  }

  lemma TailOfLines(msg: string, tail: seq<string>)
    requires |Split(msg)| > DiagnosticLines
    requires tail == Split(msg)[|Split(msg)| - DiagnosticLines..]
    ensures Split(Join(tail)) == tail
    ensures |Join(tail)| <= |msg| && Join(tail) == msg[|msg| - |Join(tail)|..]
  {
    var lines := Split(msg);
    var k := |lines| - DiagnosticLines;
    assert tail == lines[k..];
    NewlineFreeTail(lines, k);
    SplitJoin(tail);
    JoinSplit(msg);
    assert Join(lines) == msg;
    JoinTailIsSuffix(lines, k);
    assert Join(tail) == Join(lines[k..]);
  }

  /** A tail of newline-free lines is newline-free. */
  lemma NewlineFreeTail(lines: seq<string>, k: nat)
    requires k <= |lines|
    requires forall i :: 0 <= i < |lines| ==> '\n' !in lines[i]
    ensures forall i :: 0 <= i < |lines[k..]| ==> '\n' !in lines[k..][i]
  {
    forall i | 0 <= i < |lines[k..]|
      ensures '\n' !in lines[k..][i]
    {
      assert lines[k..][i] == lines[k + i];
    }
  }

  /** `run_ffmpeg_command`: success exactly on exit code 0, with an empty
      message; otherwise the diagnostic, or the text of the exception. */
  function RunFfmpegCommand(engine: Engine, cmd: seq<string>): (s: Status)
    ensures s.success <==> engine(cmd).Exited? && engine(cmd).returncode == 0
    ensures s.success ==> s.message == ""
    ensures engine(cmd).Exited? && engine(cmd).returncode != 0 ==> s.message == Diagnostic(engine(cmd).stderr)
    ensures engine(cmd).BinaryNotFound? ==> s.message == "FFmpeg binary not found"
    ensures engine(cmd).Raised? ==> s.message == engine(cmd).message
  {
    match engine(cmd)
    case Exited(code, stderr) =>
      if code == 0 then Status(true, "") else Status(false, Diagnostic(stderr))
    case BinaryNotFound => Status(false, "FFmpeg binary not found")
    case Raised(message) => Status(false, message)
  }

  /** `cleanup_temp_files`: tries to delete every listed path in order. A
      missing file is no error; a path in `locked` cannot be deleted and the
      failure is swallowed. Nothing is raised. */
  method CleanupTempFiles(fs: set<string>, paths: seq<string>, locked: set<string>)
    returns (fs': set<string>, attempted: seq<string>)
    ensures attempted == paths
    ensures forall p :: p in fs' <==> p in fs && (p !in paths || p in locked)
  {
    fs' := fs;
    attempted := [];
    var i := 0;
    while i < |paths|
      invariant 0 <= i <= |paths|
      invariant attempted == paths[..i]
      invariant forall p :: p in fs' <==> p in fs && (p !in paths[..i] || p in locked)
    {
      var p := paths[i];
      if p !in locked {
        fs' := fs' - {p};
      }
      attempted := attempted + [p];
      assert paths[..i + 1] == paths[..i] + [p];
      i := i + 1;
    }
    assert paths[..i] == paths;
  }

  /** The answers the preference prompts gave. */
  datatype Preferences = Preferences(removeSilence: bool, normalizeAudio: bool, audioTrack: int)

  /** One stage of a job: the invocation and the label its failure carries. */
  datatype Step = Step(errorPrefix: string, invocation: Invocation)

  const ConversionFailed: string := "Conversion failed: "
  const BaseConversionFailed: string := "Base conversion failed: "
  const SilenceRemovalFailed: string := "Silence removal failed: "
  const NormalizationFailed: string := "Normalization failed: "

  /** The temporary files the chosen chain allocates. */
  function TempFiles(prefs: Preferences, temp1: string, temp2: string): (r: seq<string>)
    ensures |r| == (if prefs.removeSilence then 1 else 0) + (if prefs.normalizeAudio then 1 else 0)
    ensures r == [temp1, temp2][..|r|]
  {
    if prefs.removeSilence && prefs.normalizeAudio then [temp1, temp2]
    else if prefs.removeSilence || prefs.normalizeAudio then [temp1]
    else []
  }

  /** The stage chain for the two flags: extraction, then silence removal if
      asked for, then normalisation if asked for. Each stage reads what the
      previous one wrote; only the last writes the output path. */
  function Chain(prefs: Preferences, input: string, output: string, temp1: string, temp2: string): (steps: seq<Step>)
    ensures |steps| == 1 + |TempFiles(prefs, temp1, temp2)|
    ensures steps[0].invocation.Extract? && steps[0].invocation.input == input
    ensures steps[0].invocation.track == prefs.audioTrack
    ensures steps[|steps| - 1].invocation.output == output
    ensures forall j :: 0 < j < |steps| ==> steps[j].invocation.input == steps[j - 1].invocation.output
    ensures forall j :: 0 <= j < |steps| - 1 ==> steps[j].invocation.output == TempFiles(prefs, temp1, temp2)[j]
    ensures forall j :: 0 < j < |steps| ==> !steps[j].invocation.Extract?
    ensures prefs.normalizeAudio ==> steps[|steps| - 1].invocation.Normalize?
    ensures prefs.removeSilence ==> steps[1].invocation.RemoveSilence?
  {
    if prefs.removeSilence && prefs.normalizeAudio then
      [Step(BaseConversionFailed, Extract(input, temp1, prefs.audioTrack)),
       Step(SilenceRemovalFailed, RemoveSilence(temp1, temp2)),
       Step(NormalizationFailed, Normalize(temp2, output))]
    else if prefs.removeSilence then
      [Step(BaseConversionFailed, Extract(input, temp1, prefs.audioTrack)),
       Step(SilenceRemovalFailed, RemoveSilence(temp1, output))]
    else if prefs.normalizeAudio then
      [Step(BaseConversionFailed, Extract(input, temp1, prefs.audioTrack)),
       Step(NormalizationFailed, Normalize(temp1, output))]
    else
      [Step(ConversionFailed, Extract(input, output, prefs.audioTrack))]
  }

  /** The argument lists of a chain, in order. */
  function Commands(ffmpeg: string, steps: seq<Step>): (cmds: seq<seq<string>>)
    ensures |cmds| == |steps|
    ensures forall j :: 0 <= j < |steps| ==> cmds[j] == Build(ffmpeg, steps[j].invocation)
  {
    seq(|steps|, j requires 0 <= j < |steps| => Build(ffmpeg, steps[j].invocation))
  }

  /** The failure labels of a chain, in order. */
  function Labels(steps: seq<Step>): (labels: seq<string>)
    ensures |labels| == |steps|
    ensures forall j :: 0 <= j < |steps| ==> labels[j] == steps[j].errorPrefix
  {
    seq(|steps|, j requires 0 <= j < |steps| => steps[j].errorPrefix)
  }

  /** The path a command writes to: its last argument. */
  function OutputOf(cmd: seq<string>): string
    requires |cmd| >= 1
  {
    cmd[|cmd| - 1]
  }

  /** The paths a list of commands writes to. */
  function Outputs(cmds: seq<seq<string>>): set<string>
    requires forall j :: 0 <= j < |cmds| ==> |cmds[j]| >= 1
  {
    set j | 0 <= j < |cmds| :: OutputOf(cmds[j])
  }

  /** The output paths of the issued commands that succeeded: what running
      `trace` leaves on disk. */
  function Written(run: Runner, trace: seq<seq<string>>): set<string> {
    set j | 0 <= j < |trace| && |trace[j]| >= 1 && run(trace[j]).success :: OutputOf(trace[j])
  }

  /** Issuing one more command adds its output exactly when it succeeds. */
  lemma WrittenAppend(run: Runner, trace: seq<seq<string>>, cmd: seq<string>)
    requires |cmd| >= 1
    ensures Written(run, trace + [cmd])
            == Written(run, trace) + (if run(cmd).success then {OutputOf(cmd)} else {})
  {
    var t := trace + [cmd];
    assert forall j :: 0 <= j < |trace| ==> t[j] == trace[j];
    assert t[|trace|] == cmd;
  }

  /** Running one argument list to its status. */
  type Runner = seq<string> -> Status

  /** `run_ffmpeg_command` with a fixed engine. */
  function Runs(engine: Engine): Runner {
    cmd => RunFfmpegCommand(engine, cmd)
  }

  /** The issued commands are the planned ones up to and including the first
      that failed; the job succeeds only if all of them ran and succeeded, and
      otherwise reports the failed stage's label followed by its error text. */
  predicate RanUntilFirstFailure(planned: seq<seq<string>>, labels: seq<string>, run: Runner,
                                 trace: seq<seq<string>>, result: Status)
    requires |labels| == |planned|
  {
    && 1 <= |trace| <= |planned| && trace == planned[..|trace|]
    && (forall j :: 0 <= j < |trace| - 1 ==> run(trace[j]).success)
    && (result.success <==> |trace| == |planned| && run(trace[|trace| - 1]).success)
    && (result.success ==> result.message == "")
    && (!result.success ==> !run(trace[|trace| - 1]).success)
    && (!result.success ==>
          result.message == labels[|trace| - 1] + run(trace[|trace| - 1]).message)
  }

  /** When every planned command succeeds, all of them run and the job succeeds. */
  lemma AllSucceedRunsAll(planned: seq<seq<string>>, labels: seq<string>, run: Runner,
                          trace: seq<seq<string>>, result: Status)
    requires |labels| == |planned|
    requires RanUntilFirstFailure(planned, labels, run, trace, result)
    requires forall j :: 0 <= j < |planned| ==> run(planned[j]).success
    ensures trace == planned && result == Status(true, "")
  {
    assert run(trace[|trace| - 1]).success by {
      assert trace[|trace| - 1] == planned[|trace| - 1];
    }
  }

  /** When command `k` is the first to fail, exactly the commands up to `k`
      run and the job fails with stage `k`'s label. */
  lemma FirstFailureStops(planned: seq<seq<string>>, labels: seq<string>, run: Runner,
                          trace: seq<seq<string>>, result: Status, k: int)
    requires |labels| == |planned|
    requires RanUntilFirstFailure(planned, labels, run, trace, result)
    requires 0 <= k < |planned| && !run(planned[k]).success
    requires forall j :: 0 <= j < k ==> run(planned[j]).success
    ensures trace == planned[..k + 1]
    ensures result == Status(false, labels[k] + run(planned[k]).message)
  {
    // The issued commands are the plan's first ones, so an earlier stop would
    // end on a success and a later one would have passed stage k.
    assert forall j :: 0 <= j < |trace| ==> trace[j] == planned[j];
  }

  /** Runs the planned commands in order with `run` and stops at the first
      failure. A command that succeeds leaves its output path on disk. */
  method RunSteps(planned: seq<seq<string>>, labels: seq<string>, run: Runner, fs: set<string>)
    returns (result: Status, trace: seq<seq<string>>, fs': set<string>)
    requires |planned| >= 1 && |labels| == |planned|
    requires forall j :: 0 <= j < |planned| ==> |planned[j]| >= 1
    requires forall j :: 0 <= j < |planned| - 1 ==> OutputOf(planned[j]) != OutputOf(planned[|planned| - 1])
    ensures RanUntilFirstFailure(planned, labels, run, trace, result)
    ensures fs' == fs + Written(run, trace)
    ensures fs <= fs' <= fs + Outputs(planned)
    ensures OutputOf(planned[|planned| - 1]) in fs' - fs ==> result.success
    ensures result.success ==> OutputOf(planned[|planned| - 1]) in fs'
  {
    result := Status(true, "");
    trace := [];
    fs' := fs;
    var i := 0;
    while i < |planned| && result.success
      invariant 0 <= i <= |planned|
      invariant trace == planned[..i]
      invariant forall j :: 0 <= j < i - 1 ==> run(planned[j]).success
      invariant result.success <==> i == 0 || run(planned[i - 1]).success
      invariant result.success ==> result.message == ""
      invariant !result.success ==> result.message == labels[i - 1] + run(planned[i - 1]).message
      invariant fs' == fs + Written(run, trace)
    {
      var cmd := planned[i];
      var status := run(cmd);
      WrittenAppend(run, trace, cmd);
      trace := trace + [cmd];
      assert trace == planned[..i + 1];
      if status.success {
        fs' := fs' + {OutputOf(cmd)};
      } else {
        result := Status(false, labels[i] + status.message);
      }
      i := i + 1;
    }
    WrittenWithin(planned, run, |trace|);
    LastWritten(planned, run, |trace|);
  }

  /** What a prefix of the plan writes lies among the plan's outputs. */
  lemma WrittenWithin(planned: seq<seq<string>>, run: Runner, n: nat)
    requires n <= |planned|
    requires forall j :: 0 <= j < |planned| ==> |planned[j]| >= 1
    ensures Written(run, planned[..n]) <= Outputs(planned)
  {
    forall p | p in Written(run, planned[..n])
      ensures p in Outputs(planned)
    {
      var j :| 0 <= j < n && |planned[..n][j]| >= 1 && run(planned[..n][j]).success
               && OutputOf(planned[..n][j]) == p;
      assert planned[..n][j] == planned[j];
    }
  }

  /** When no earlier command writes where the last one does, a prefix of the
      plan writes the final output exactly when it is the whole plan and its
      last command succeeds. */
  lemma LastWritten(planned: seq<seq<string>>, run: Runner, n: nat)
    requires 1 <= n <= |planned|
    requires forall j :: 0 <= j < |planned| ==> |planned[j]| >= 1
    requires forall j :: 0 <= j < |planned| - 1 ==> OutputOf(planned[j]) != OutputOf(planned[|planned| - 1])
    ensures OutputOf(planned[|planned| - 1]) in Written(run, planned[..n])
            <==> n == |planned| && run(planned[n - 1]).success
  {
    var last := OutputOf(planned[|planned| - 1]);
    var t := planned[..n];
    if last in Written(run, t) {
      var j :| 0 <= j < n && |t[j]| >= 1 && run(t[j]).success && OutputOf(t[j]) == last;
      assert t[j] == planned[j];
    }
    if n == |planned| && run(planned[n - 1]).success {
      assert t[n - 1] == planned[n - 1];
    }
  }

  /** The commands and labels of each of the four chains, and where each
      command writes. */
  lemma ChainPlan(prefs: Preferences, f: string, i: string, o: string, t1: string, t2: string)
    requires o != t1 && o != t2
    ensures var steps := Chain(prefs, i, o, t1, t2);
            var planned := Commands(f, steps);
            var k := prefs.audioTrack;
            && (!prefs.removeSilence && !prefs.normalizeAudio ==>
                  planned == [BuildBaseConversionCommand(f, i, o, k)]
                  && Labels(steps) == [ConversionFailed])
            && (prefs.removeSilence && !prefs.normalizeAudio ==>
                  planned == [BuildBaseConversionCommand(f, i, t1, k), BuildSilenceRemovalCommand(f, t1, o)]
                  && Labels(steps) == [BaseConversionFailed, SilenceRemovalFailed])
            && (!prefs.removeSilence && prefs.normalizeAudio ==>
                  planned == [BuildBaseConversionCommand(f, i, t1, k), BuildNormalizationCommand(f, t1, o)]
                  && Labels(steps) == [BaseConversionFailed, NormalizationFailed])
            && (prefs.removeSilence && prefs.normalizeAudio ==>
                  planned == [BuildBaseConversionCommand(f, i, t1, k), BuildSilenceRemovalCommand(f, t1, t2),
                              BuildNormalizationCommand(f, t2, o)]
                  && Labels(steps) == [BaseConversionFailed, SilenceRemovalFailed, NormalizationFailed])
    ensures var planned := Commands(f, Chain(prefs, i, o, t1, t2));
            && (forall j :: 0 <= j < |planned| ==> |planned[j]| >= 1)
            && OutputOf(planned[|planned| - 1]) == o
            && (forall j :: 0 <= j < |planned| - 1 ==> OutputOf(planned[j]) == TempFiles(prefs, t1, t2)[j])
  {
  }

  /** Everything a chain writes is one of its temporary files or the output. */
  lemma ChainOutputs(prefs: Preferences, f: string, i: string, o: string, t1: string, t2: string, p: string)
    requires o != t1 && o != t2
    requires p in Outputs(Commands(f, Chain(prefs, i, o, t1, t2)))
    ensures p == o || p in TempFiles(prefs, t1, t2)
  {
    ChainPlan(prefs, f, i, o, t1, t2);
    var planned := Commands(f, Chain(prefs, i, o, t1, t2));
    var j :| 0 <= j < |planned| && OutputOf(planned[j]) == p;
    if j < |planned| - 1 {
      assert p == TempFiles(prefs, t1, t2)[j];
    }
  }

  /** The four chains, spelled out command by command. */
  predicate FollowsFlags(prefs: Preferences, f: string, i: string, o: string, t1: string, t2: string,
                         engine: Engine, trace: seq<seq<string>>, result: Status)
  {
    var k := prefs.audioTrack;
    && (!prefs.removeSilence && !prefs.normalizeAudio ==>
          RanUntilFirstFailure([BuildBaseConversionCommand(f, i, o, k)],
                               [ConversionFailed], Runs(engine), trace, result))
    && (prefs.removeSilence && !prefs.normalizeAudio ==>
          RanUntilFirstFailure([BuildBaseConversionCommand(f, i, t1, k),
                                BuildSilenceRemovalCommand(f, t1, o)],
                               [BaseConversionFailed, SilenceRemovalFailed], Runs(engine), trace, result))
    && (!prefs.removeSilence && prefs.normalizeAudio ==>
          RanUntilFirstFailure([BuildBaseConversionCommand(f, i, t1, k),
                                BuildNormalizationCommand(f, t1, o)],
                               [BaseConversionFailed, NormalizationFailed], Runs(engine), trace, result))
    && (prefs.removeSilence && prefs.normalizeAudio ==>
          RanUntilFirstFailure([BuildBaseConversionCommand(f, i, t1, k),
                                BuildSilenceRemovalCommand(f, t1, t2),
                                BuildNormalizationCommand(f, t2, o)],
                               [BaseConversionFailed, SilenceRemovalFailed, NormalizationFailed],
                               Runs(engine), trace, result))
  }

  lemma ChainFollowsFlags(prefs: Preferences, f: string, i: string, o: string, t1: string, t2: string,
                          engine: Engine, trace: seq<seq<string>>, result: Status)
    requires o != t1 && o != t2
    requires RanUntilFirstFailure(Commands(f, Chain(prefs, i, o, t1, t2)), Labels(Chain(prefs, i, o, t1, t2)),
                                  Runs(engine), trace, result)
    ensures FollowsFlags(prefs, f, i, o, t1, t2, engine, trace, result)
  {
    ChainPlan(prefs, f, i, o, t1, t2);
  }

  /** With an engine that always exits with code 0, every stage of the chosen
      chain runs (three with both flags) and the job succeeds. */
  lemma SucceedingEngineRunsWholeChain(prefs: Preferences, f: string, i: string, o: string, t1: string,
                                       t2: string, engine: Engine, trace: seq<seq<string>>, result: Status)
    requires forall c :: engine(c).Exited? && engine(c).returncode == 0
    requires FollowsFlags(prefs, f, i, o, t1, t2, engine, trace, result)
    ensures result == Status(true, "")
    ensures |trace| == 1 + |TempFiles(prefs, t1, t2)|
  {
    var k := prefs.audioTrack;
    var base := BuildBaseConversionCommand(f, i, if prefs.removeSilence || prefs.normalizeAudio then t1 else o, k);
    if prefs.removeSilence && prefs.normalizeAudio {
      var planned := [base, BuildSilenceRemovalCommand(f, t1, t2), BuildNormalizationCommand(f, t2, o)];
      AllSucceedRunsAll(planned, [BaseConversionFailed, SilenceRemovalFailed, NormalizationFailed],
                        Runs(engine), trace, result);
    } else if prefs.removeSilence {
      var planned := [base, BuildSilenceRemovalCommand(f, t1, o)];
      AllSucceedRunsAll(planned, [BaseConversionFailed, SilenceRemovalFailed], Runs(engine), trace, result);
    } else if prefs.normalizeAudio {
      var planned := [base, BuildNormalizationCommand(f, t1, o)];
      AllSucceedRunsAll(planned, [BaseConversionFailed, NormalizationFailed], Runs(engine), trace, result);
    } else {
      AllSucceedRunsAll([base], [ConversionFailed], Runs(engine), trace, result);
    }
  }

  /** The disk after a job that wrote `written` and then handed `cleaned`
      to cleanup: cleanup never touches the output; a temporary file stays
      exactly when it cannot be deleted and was there before or written by
      the job; and nothing else changes except the output appearing when the
      job succeeds. */
  ghost predicate CleanedUp(output: string, cleaned: seq<string>, written: set<string>, success: bool,
                            fs: set<string>, locked: set<string>, fs': set<string>)
  {
    && output !in cleaned
    && (forall p :: p in cleaned && p in fs' ==> p in locked)
    && (forall p :: p in cleaned ==> (p in fs' <==> p in locked && (p in fs || p in written)))
    && (forall p :: p !in cleaned ==> (p in fs' <==> p in fs || (p == output && success)))
  }

  /** The part of `convert_video_to_audio` after the engine and the output
      path are known: run the chain the flags select from `input` to `output`
      through the temporary paths, then clean up the temporary files. */
  method RunJob(prefs: Preferences, ffmpeg: string, input: string, output: string, temp1: string, temp2: string,
                engine: Engine, fs: set<string>, locked: set<string>)
    returns (result: Status, trace: seq<seq<string>>, cleaned: seq<string>, fs': set<string>)
    requires output != temp1 && output != temp2
    ensures FollowsFlags(prefs, ffmpeg, input, output, temp1, temp2, engine, trace, result)
    ensures cleaned == TempFiles(prefs, temp1, temp2)
    ensures CleanedUp(output, cleaned, Written(Runs(engine), trace), result.success, fs, locked, fs')
  {
    var steps := Chain(prefs, input, output, temp1, temp2);
    var tempFiles := TempFiles(prefs, temp1, temp2);
    var planned := Commands(ffmpeg, steps);
    ChainPlan(prefs, ffmpeg, input, output, temp1, temp2);
    var fsNow;
    result, trace, fsNow := RunSteps(planned, Labels(steps), Runs(engine), fs);
    ChainFollowsFlags(prefs, ffmpeg, input, output, temp1, temp2, engine, trace, result);
    forall p | p in fsNow && p !in fs
      ensures p == output || p in tempFiles
    {
      ChainOutputs(prefs, ffmpeg, input, output, temp1, temp2, p);
    }
    fs', cleaned := CleanupTempFiles(fsNow, tempFiles, locked);
  }

  /** `convert_video_to_audio` for one input file. `ffmpegPath` is what
      locating the engine produced, `fs` the files on disk beforehand and
      `locked` the paths that cannot be deleted. Returns the status, the
      commands issued, the paths handed to cleanup, and the files on disk
      afterwards. */
  method ConvertVideoToAudio(input: Path, prefs: Preferences, ffmpegPath: Result<string>, engine: Engine,
                             fs: set<string>, locked: set<string>)
    returns (result: Status, trace: seq<seq<string>>, cleaned: seq<string>, fs': set<string>)
    // Locating the engine or naming the output raised: nothing runs, nothing changes.
    ensures ffmpegPath.Error? ==> && result == Status(false, ffmpegPath.message)
                                  && trace == [] && cleaned == [] && fs' == fs
    ensures ffmpegPath.Ok? && GetOutputPath(input).Error? ==>
              && result == Status(false, GetOutputPath(input).message)
              && trace == [] && cleaned == [] && fs' == fs
    ensures ffmpegPath.Ok? && GetOutputPath(input).Ok? ==>
      var out := GetOutputPath(input).value;
      var o := PathString(out);
      var t1 := PathString(GetTempPath(out, 1).value);
      var t2 := PathString(GetTempPath(out, 2).value);
      && FollowsFlags(prefs, ffmpegPath.value, PathString(input), o, t1, t2, engine, trace, result)
      // The chain's temporary files go to cleanup, with the disk effect
      // `CleanedUp` describes.
      && cleaned == TempFiles(prefs, t1, t2)
      && CleanedUp(o, cleaned, Written(Runs(engine), trace), result.success, fs, locked, fs')
  {
    if ffmpegPath.Error? {
      result, trace := Status(false, ffmpegPath.message), [];
      // The `finally` clause runs with no temporary files allocated yet.
      fs', cleaned := CleanupTempFiles(fs, [], locked);
    } else {
      var outPath := GetOutputPath(input);
      if outPath.Error? {
        result, trace := Status(false, outPath.message), [];
        fs', cleaned := CleanupTempFiles(fs, [], locked);
      } else {
        var t1 := GetTempPath(outPath.value, 1).value;
        var t2 := GetTempPath(outPath.value, 2).value;
        TempPathsDistinct(outPath.value);
        result, trace, cleaned, fs' := RunJob(prefs, ffmpegPath.value, PathString(input), PathString(outPath.value),
                                              PathString(t1), PathString(t2), engine, fs, locked);
      }
    }
  }
}
