# Video-to-audio converter: a Dafny model

This project models the batch video-to-audio converter. The converter turns
every video file in a directory into an `.m4a` audio file by calling the
external `ffmpeg` engine. Each job always runs a base conversion. Silence
removal and loudness normalisation are optional stages after it, and the
stages hand their results on through `.temp1`/`.temp2` files.

The repository contains the same logic twice: once as the package
`video_to_audio/` and once as the single file `video_to_audio_converter.py`.
The two copies agree line for line on everything modelled here. There is one
model, and the table cites the package. The "states" column gives the
matching lines of the single file.

Modules, one per source file:

- `Config` (`config.dfy`): the fixed constants, including the codec, the bitrate,
  the filter settings, the temp suffixes and the supported extensions.
- `FileUtils` (`file_utils.dfy`): paths as `Path(dir, name)`. It models
  `PurePath.suffix`/`stem`, `get_output_path` and `get_temp_path`, and
  `find_video_files` over a directory listing passed in as data.
- `FfmpegCommands` (`ffmpeg_commands.dfy`): the three argument-list builders.
  `Parse` recognises a built list and recovers what it does, and the two
  round-trip lemmas connect `Parse` with the builders.
- `Converter` (`converter.dfy`): `run_ffmpeg_command`, `cleanup_temp_files`
  and `convert_video_to_audio`.
  - The engine is a function from an argument list to `Exited(code, stderr)`,
    `BinaryNotFound` or `Raised(msg)`.
  - The disk is a `set<string>` of existing paths.
  - The converter returns the commands it issued, the paths it cleaned up and
    the disk afterwards.
- `Cli` (`cli.dfy`): the quote stripping of a typed directory, `process_files`
  over a converter given as a function, the counts of `display_summary`, and
  `main`'s early exits.
- `Text`, `Decimal`, `Wrappers`: Python's `strip`, `split('\n')`,
  `'\n'.join`, `lower`, string ordering and `str(int)`, plus `Option`/`Result`.
  A Python exception is modelled as `Error(str(e))`.

## Model

| member | source | states |
|---|---|---|
| `Converter.ConvertVideoToAudio` | video_to_audio/converter.py:17-136 | If locating the engine or naming the output raises, the result is `(False, str(e))`, no command is issued, cleanup gets an empty list and the disk is unchanged. Otherwise the issued commands follow the chain the two flags select (see `FollowsFlags`). Cleanup receives exactly that chain's temp files, never the output path. Afterwards no deletable temp file remains. A temp file that cannot be deleted remains exactly when it was there before or a successful command of the chain wrote it. The only other change on disk is the output appearing, and only when the job succeeded. The single file has the same logic at video_to_audio_converter.py:356-475. |
| `Converter.RunJob` | video_to_audio/converter.py:50-136 | Once the engine and the paths are known, the job follows the flag-selected chain, cleans up exactly the chain's temp files and leaves the same disk effects as above, whichever stage failed. `CleanedUp` spells out those effects: the output is never cleaned; a cleaned path stays exactly when it is undeletable and was on disk before or written by the chain; and any other path is on disk afterwards exactly when it was before or is the output of a successful job. |
| `Converter.ChainFollowsFlags` | video_to_audio/converter.py:50-129 | The four chains command by command. Neither flag: one base command input→output, labelled "Conversion failed: ". Silence only: base input→temp1, then silence temp1→output. Normalize only: base input→temp1, then normalize temp1→output. Both: base input→temp1, silence temp1→temp2, normalize temp2→output. The labels are "Base conversion failed: ", "Silence removal failed: " and "Normalization failed: " (single file: video_to_audio_converter.py:389-468). |
| `Converter.AllSucceedRunsAll` | video_to_audio/converter.py:56-76 | When every planned command succeeds, all of them are issued and the result is `(True, "")`. |
| `Converter.FirstFailureStops` | video_to_audio/converter.py:56-76 | When command k is the first to fail, exactly commands 0..k are issued. The result is `(False, label_k + error_k)`. |
| `Converter.SucceedingEngineRunsWholeChain` | video_to_audio/converter.py:50-129 | With an engine that always exits with code 0, every stage of the selected chain runs and the job returns `(True, "")`. With both flags that is three engine calls. |
| `Converter.RunSteps` | video_to_audio/converter.py:56-76 | The job passes `run_ffmpeg_command` bound to the engine as `run`. The issued commands are a non-empty prefix of the plan. Every issued command but the last succeeded, and on failure the last one failed, so the run ends at the first failing command. The result is `(True, "")` exactly when every planned command ran and succeeded. Otherwise the message is the failing stage's label followed by that command's error text. Afterwards the disk is exactly the old one plus the output path of each issued command that succeeded. So only the plan's output paths can appear, and the final output appears exactly on success. |
| `Converter.Chain` | video_to_audio/converter.py:50-129 | The chain has 1 + one stage per enabled flag. It starts with a base conversion of the input using the chosen track. Every later stage reads what the previous one wrote, and only the last stage writes the output. The earlier stages write the temp files in order. Silence removal comes second and normalisation last. |
| `Converter.ChainPlan` | video_to_audio/converter.py:50-129 | Each flag combination maps to its fixed list of commands and failure labels. The last command writes the output, and command j < last writes temp file j. |
| `Converter.ChainOutputs` | video_to_audio/converter.py:50-129 | Everything a chain writes is one of its temp files or the output path. |
| `Converter.TempFiles` | video_to_audio/converter.py:52-102 | One temp file per enabled flag. The list is `[temp1, temp2]` with both flags, `[temp1]` with one and empty with neither. |
| `Converter.RunFfmpegCommand` | video_to_audio/converter.py:160-175 | Success exactly when the engine exits with code 0, with an empty message. Any other exit code gives the diagnostic of its stderr. A missing binary gives "FFmpeg binary not found". Any other exception gives its own text (single file: video_to_audio_converter.py:323-338). |
| `Converter.Diagnostic` | video_to_audio/converter.py:166-170 | The diagnostic is a suffix of the stripped stderr. It is the whole stripped text when that has at most 5 lines. Otherwise its lines are exactly the last 5 lines, so it never has more than 5 lines. |
| `Converter.CleanupTempFiles` | video_to_audio/converter.py:178-190 | Every listed path is attempted, in order. Each deletable listed path is gone afterwards, and a missing one is no error. A path whose deletion fails stays and the failure is swallowed. Nothing else on disk changes (single file: video_to_audio_converter.py:341-353). |
| `FfmpegCommands.BuildBaseConversionCommand` | video_to_audio/ffmpeg_commands.py:69-101 | 12 arguments: engine, "-i", input, "-vn", "-c:a aac -b:a 160k", "-map" and the track selector, then "-y" and output. Track 1 selects "0:a:0" (single file: video_to_audio_converter.py:185-217). |
| `FfmpegCommands.BuildSilenceRemovalCommand` | video_to_audio/ffmpeg_commands.py:104-140 | 11 arguments with the shared layout. "-af" and the silence filter come next, followed by "-c:a aac -b:a 160k" (single file: video_to_audio_converter.py:220-256). |
| `FfmpegCommands.BuildNormalizationCommand` | video_to_audio/ffmpeg_commands.py:143-179 | 11 arguments with the shared layout. "-af" and the loudnorm filter come next, followed by "-c:a aac -b:a 160k" (single file: video_to_audio_converter.py:259-295). |
| `FfmpegCommands.FilterTexts` | video_to_audio/ffmpeg_commands.py:122-128 | With the configured settings (video_to_audio/config.py:17-23), the silence filter is exactly "silenceremove=stop_periods=-1:stop_duration=1.2:stop_threshold=-55dB". The loudnorm filter (ffmpeg_commands.py:162-167) is exactly "loudnorm=I=-16:LRA=11:TP=-1.5". |
| `FfmpegCommands.FiltersDiffer` | video_to_audio/ffmpeg_commands.py:122-167 | The two filter strings differ, so a filter command tells which stage it is. |
| `FfmpegCommands.OptionPresence` | video_to_audio/ffmpeg_commands.py:90-177 | Only the base command carries "-vn" and "-map" among its options, and it has no "-af". Both filter commands carry "-af" and neither "-vn" nor "-map". |
| `FfmpegCommands.ParseBuild` | video_to_audio/ffmpeg_commands.py:87-177 | Every built argument list is recognised as the invocation it was built from: engine path, input, output and, for the base command, the 1-based track recovered from `0:a:{track-1}`. |
| `FfmpegCommands.BuildParse` | video_to_audio/ffmpeg_commands.py:87-177 | Every argument list that is recognised is exactly what the builder produces for the recovered invocation. |
| `Decimal.ParseIntToString` | video_to_audio/ffmpeg_commands.py:88-96 | The decimal text of the stream index (`str(track - 1)`) reads back as the same integer, including negative ones. |
| `Decimal.IntToStringParse` | video_to_audio/ffmpeg_commands.py:88-96 | Decimal text that is accepted is exactly the `str()` of its value. |
| `FileUtils.Suffix` | video_to_audio/file_utils.py:40 | `item.suffix` is either empty or a dot followed by dot-free text. It is a proper suffix of the name. |
| `FileUtils.Stem` | video_to_audio/file_utils.py:81-83 | `base.stem` followed by the suffix gives back the name, and a non-empty name has a non-empty stem. |
| `FileUtils.GetOutputPath` | video_to_audio/file_utils.py:50-65 | Same directory and same stem, with suffix ".m4a". A path with an empty name raises `ValueError` (single file: video_to_audio_converter.py:93-108). |
| `FileUtils.OutputPathIdempotent` | video_to_audio/file_utils.py:63-65 | Deriving the output path of an output path changes nothing. |
| `FileUtils.SharedStemSharesOutput` | video_to_audio/file_utils.py:63-65 | Inputs that differ only in their last suffix (clip.mp4 and clip.mov) get the same output path. |
| `FileUtils.GetTempPath` | video_to_audio/file_utils.py:68-85 | For 1 or 2: the same directory, suffix ".m4a" and stem `<base stem>.temp<n>`. Any other number raises `ValueError("Invalid temp_number: <n>. Must be 1 or 2.")` (single file: video_to_audio_converter.py:111-128). |
| `FileUtils.TempNames` | video_to_audio/file_utils.py:79-83 | The temp names are the base stem followed by ".temp1.m4a" and ".temp2.m4a", the values configured at video_to_audio/config.py:26-27. |
| `FileUtils.TempPathsDistinct` | video_to_audio/file_utils.py:79-83 | temp1 and temp2 differ from each other and from the path they are derived from. |
| `FileUtils.FindVideoFiles` | video_to_audio/file_utils.py:24-47 | A missing path or a non-directory gives an empty list. Otherwise the result is a permutation of the video entries, sorted non-decreasing by lower-cased name (single file: video_to_audio_converter.py:67-90). |
| `FileUtils.FoundExactlyTheVideoFiles` | video_to_audio/file_utils.py:37-45 | A path is found exactly when it lies in the scanned directory and names a regular-file entry whose lower-cased suffix is supported. |
| `FileUtils.VideoPathsMembers` | video_to_audio/file_utils.py:40-42 | The filter adds nothing and drops no video entry. |
| `FileUtils.SortByName` | video_to_audio/file_utils.py:45 | The sort result is non-decreasing in the lower-cased name and is a permutation of its input. |
| `FileUtils.SortedPairwise` | video_to_audio/file_utils.py:45 | In a sorted result every earlier name is at most every later one, not just its neighbour. |
| `FileUtils.SuffixTestExamples` | video_to_audio/file_utils.py:41 | "clip.MP4" is accepted. A directory entry named "clip.mp4" is rejected. A hidden file ".mp4" has no suffix and is rejected. |
| `Text.JoinSplit` | video_to_audio/converter.py:168-169 | Joining the pieces of `split('\n')` with newlines gives back the text. |
| `Text.SplitJoin` | video_to_audio/converter.py:168-169 | Splitting a newline join of newline-free lines gives back those lines. |
| `Text.Strip` | video_to_audio/converter.py:166 | The result is the slice of the input that starts after the opening run of whitespace and is followed only by whitespace. It has no whitespace at either end. It is empty exactly when the input is all whitespace, and it is the input itself when the input has no whitespace at its ends. |
| `Cli.StripQuotesRoundTrip` | video_to_audio/cli.py:68-72 | A path wrapped in double quotes, or in single quotes, comes back unwrapped. |
| `Cli.DoubleQuotesFirst` | video_to_audio/cli.py:69-72 | Only one pair is removed, and double quotes are checked first: `"'p'"` becomes `'p'`. |
| `Cli.StripQuotes` | video_to_audio/cli.py:69-72 | A lone quote character becomes empty (`d[1:-1]`). Text not wrapped in matching quotes is unchanged. |
| `Cli.GetDirectoryPath` | video_to_audio/cli.py:61-72 | A command-line argument is used verbatim. A typed line is stripped first and then unquoted (single file: video_to_audio_converter.py:564-575). |
| `Cli.ProcessFiles` | video_to_audio/cli.py:84-125 | The converter is called once per file, in input order. A failure or an exception does not stop the loop. The errors are (name, message) of the failed files, in input order, with `str(e)` for a raised exception (single file: video_to_audio_converter.py:587-628). |
| `Cli.ErrorsOfCount` | video_to_audio/cli.py:115-123 | The error list has exactly one entry per failed file, so at most one per file. It is empty exactly when no file failed. |
| `Cli.ErrorsOfMembers` | video_to_audio/cli.py:115-123 | Every failed file's (name, message) is in the error list. |
| `Cli.DisplaySummary` | video_to_audio/cli.py:141-170 | Total is the number of files and failed is the number of errors. Successful and failed add up to the total. The all-success line is chosen exactly when the error list is empty (single file: video_to_audio_converter.py:644-673). |
| `Cli.SummaryOfBatch` | video_to_audio/cli.py:141-170 | failed is the number of failed files, and successful = total − failed lies between 0 and total. The all-success line is printed exactly when no file failed (single file: video_to_audio_converter.py:644-673). |
| `Cli.RunCli` | video_to_audio/cli.py:12-46 | An invalid directory exits with 1 and converts nothing. A directory with no video files exits with 0 and never calls the converter. Otherwise every discovered file is converted in sorted order and summarised (single file: video_to_audio_converter.py:676-710). |

## Left out

- Running processes: `subprocess.run` and the Windows `CREATE_NO_WINDOW` flag are replaced by the engine function.
- A failed engine run is modelled as writing nothing. A real ffmpeg run can leave a partial output file, and partial files at the final output path are not modelled.
- `get_ffmpeg_path` probes the platform and the filesystem. It is an input to `ConvertVideoToAudio`, either the path or the text of the exception it raised.
- A missing engine does not abort the batch. `get_ffmpeg_path` runs inside each file's `try`, so every file fails with that message and the batch carries on.
- `validate_directory`, `Path.iterdir` and `is_file` are replaced by a `Listing` value: missing, not a directory, or a sequence of (name, is-regular-file) entries. `validate_directory` succeeds exactly on a `Directory` listing.
- The interactive prompts (`video_to_audio/prompts.py` and their single-file copies) are left out. `Preferences` is an input, and the prompts guarantee a track of at least 1 (video_to_audio/prompts.py:55-56). The builders accept any integer track.
- `preferences.get(key, default)` falls back to defaults for missing keys. The only producer always sets all three keys, so the defaults are not modelled.
- All printing and banners in `main`, `process_files` and `display_summary`.
- The audio meaning of `aac`, `silenceremove` and `loudnorm`: the filter strings are opaque constants.
- Text.Strip: only ASCII whitespace (codes 9–13, 28–32) is stripped. Python's `str.strip()` also strips non-ASCII Unicode spaces.
- FileUtils.FindVideoFiles: lower-casing is ASCII only, and the stability of Python's sort for names that are equal once lower-cased is not stated.
- Path handling follows pathlib's suffix rule up to Python 3.12: the last dot, unless it is the first or the last character. There is no separator normalisation, no Windows separators and no parsing of path strings. `Path(dir, name)` prints as `dir/name`, or as `name` for an empty `dir`. The typed directory text becomes `dir` unchanged. So for the directory `.` the model names `./clip.mp4` where pathlib gives `clip.mp4`, and for `videos/` it names `videos//clip.mp4` where pathlib gives `videos/clip.mp4`.
- FileUtils.GetOutputPath: the `ValueError` text for an empty name uses the POSIX `repr` (`PosixPath('…')`). On Windows the text would say `WindowsPath`.
