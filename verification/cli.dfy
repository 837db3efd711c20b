/** The batch driver (video_to_audio/cli.py): reading the directory path,
    converting every discovered file, and summarising the failures. */
module Cli {

  import opened Wrappers
  import opened Text
  import opened FileUtils
  import opened Converter

  /** Removes one pair of double quotes around the text, or failing that one
      pair of single quotes. */
  function StripQuotes(d: string): (r: string)
    ensures |d| >= 2 && d[0] == '"' && d[|d| - 1] == '"' ==> r == d[1..|d| - 1]
    ensures !(|d| >= 1 && d[0] == '"' && d[|d| - 1] == '"') && |d| >= 2 && d[0] == '\'' && d[|d| - 1] == '\'' ==>
              r == d[1..|d| - 1]
    ensures !(|d| >= 1 && d[0] == '"' && d[|d| - 1] == '"') && !(|d| >= 1 && d[0] == '\'' && d[|d| - 1] == '\'') ==>
              r == d
    ensures d == "\"" || d == "'" ==> r == ""
  {
    if |d| >= 1 && d[0] == '"' && d[|d| - 1] == '"' then
      // `d[1:-1]` of a lone quote is empty.
      if |d| >= 2 then d[1..|d| - 1] else ""
    else if |d| >= 1 && d[0] == '\'' && d[|d| - 1] == '\'' then
      if |d| >= 2 then d[1..|d| - 1] else ""
    else d
  }

  /** Quoting a path and stripping the quotes gives the path back, whichever
      quote character was used. */
  lemma StripQuotesRoundTrip(p: string)
    ensures StripQuotes("\"" + p + "\"") == p
    ensures StripQuotes("'" + p + "'") == p
  {
    var dq := "\"" + p + "\"";
    assert dq[1..|dq| - 1] == p;
    var sq := "'" + p + "'";
    assert sq[1..|sq| - 1] == p;
  }

  /** Only one pair of quotes is removed, and double quotes are tried first. */
  lemma DoubleQuotesFirst(p: string)
    ensures StripQuotes("\"'" + p + "'\"") == "'" + p + "'"
  {
    var d := "\"'" + p + "'\"";
    assert d[1..|d| - 1] == "'" + p + "'";
  }

  /** `get_directory_path` before validation: the first command-line argument
      verbatim, or else the typed line, stripped and unquoted. `argv[0]` is
      the program name. */
  function GetDirectoryPath(argv: seq<string>, typed: string): (r: string)
    ensures |argv| > 1 ==> r == argv[1]
    ensures |argv| <= 1 ==> r == StripQuotes(Strip(typed))
  {
    if |argv| > 1 then argv[1] else StripQuotes(Strip(typed))
  }

  /** What the converter did for one file: returned a status, or raised. */
  datatype Attempt = Returned(status: Status) | Threw(message: string)

  /** The converter applied to every file, as a function of the file. */
  type ConvertFile = Path -> Attempt

  /** The error-list entry a file contributes, if its conversion failed. */
  function ErrorFor(file: Path, attempt: Attempt): Option<(string, string)> {
    match attempt
    case Returned(status) => if status.success then None else Some((file.name, status.message))
    case Threw(message) => Some((file.name, message))
  }

  /** The errors of a batch, in file order: the reference the loop is held to. */
  function ErrorsOf(files: seq<Path>, convert: ConvertFile): (errors: seq<(string, string)>) {
    if |files| == 0 then []
    else
      var last := files[|files| - 1];
      ErrorsOf(files[..|files| - 1], convert)
        + (match ErrorFor(last, convert(last)) case Some(e) => [e] case None => [])
  }

  predicate Failed(file: Path, convert: ConvertFile) {
    ErrorFor(file, convert(file)).Some?
  }

  /** How many files of the batch failed. */
  function FailureCount(files: seq<Path>, convert: ConvertFile): nat {
    if |files| == 0 then 0
    else FailureCount(files[..|files| - 1], convert) + (if Failed(files[|files| - 1], convert) then 1 else 0)
  }

  /** The error list has one entry per failed file, so at most one per file;
      it is empty exactly when no file failed. */
  lemma {:induction false} ErrorsOfCount(files: seq<Path>, convert: ConvertFile)
    ensures |ErrorsOf(files, convert)| == FailureCount(files, convert) <= |files|
    ensures ErrorsOf(files, convert) == [] <==> forall j :: 0 <= j < |files| ==> !Failed(files[j], convert)
  {
    if |files| > 0 {
      var init := files[..|files| - 1];
      ErrorsOfCount(init, convert);
      assert forall j :: 0 <= j < |init| ==> init[j] == files[j];
    }
  }

  /** Every failed file has its entry in the error list: its name and the
      message its conversion returned or raised. */
  lemma {:induction false} ErrorsOfMembers(files: seq<Path>, convert: ConvertFile, j: int)
    requires 0 <= j < |files|
    ensures Failed(files[j], convert) ==> ErrorFor(files[j], convert(files[j])).value in ErrorsOf(files, convert)
  {
    var init := files[..|files| - 1];
    if j < |files| - 1 {
      assert init[j] == files[j];
      ErrorsOfMembers(init, convert, j);
    }
  }

  /** `process_files`: calls the converter once per file, in order, and
      carries on after failures and exceptions, collecting (name, message)
      for each failed file. */
  method ProcessFiles(files: seq<Path>, convert: ConvertFile) returns (errors: seq<(string, string)>, calls: seq<Path>)
    ensures calls == files
    ensures errors == ErrorsOf(files, convert)
    ensures |errors| <= |files|
  {
    errors := [];
    calls := [];
    var i := 0;
    while i < |files|
      invariant 0 <= i <= |files|
      invariant calls == files[..i]
      invariant errors == ErrorsOf(files[..i], convert)
    {
      var file := files[i];
      var attempt := convert(file);
      calls := calls + [file];
      match attempt {
        case Returned(status) =>
          if !status.success {
            errors := errors + [(file.name, status.message)];
          }
        case Threw(message) =>
          errors := errors + [(file.name, message)];
      }
      assert files[..i + 1][..i] == files[..i];
      i := i + 1;
    }
    assert files[..i] == files;
    ErrorsOfCount(files, convert);
  }

  /** The counts `display_summary` reports. */
  datatype Summary = Summary(total: int, successful: int, failed: int, allSucceeded: bool)

  /** `display_summary`, without its printing. */
  function DisplaySummary(files: seq<Path>, errors: seq<(string, string)>): (s: Summary)
    ensures s.total == |files| && s.failed == |errors|
    ensures s.successful + s.failed == s.total
    ensures s.allSucceeded <==> errors == []
  {
    Summary(|files|, |files| - |errors|, |errors|, |errors| == 0)
  }

  /** For a batch that `process_files` produced, the summary counts exactly the
      files whose conversion failed, never reports a negative success count,
      and prints the all-success line exactly when no file failed. */
  lemma SummaryOfBatch(files: seq<Path>, convert: ConvertFile)
    ensures var s := DisplaySummary(files, ErrorsOf(files, convert));
            && s.failed == FailureCount(files, convert)
            && 0 <= s.successful <= s.total
            && (s.allSucceeded <==> forall j :: 0 <= j < |files| ==> !Failed(files[j], convert))
  {
    ErrorsOfCount(files, convert);
  }

  /** How a run of the program ends. */
  datatype Exit =
    | InvalidDirectory            // `sys.exit(1)` after validation fails
    | NoVideoFiles                // `sys.exit(0)` before any conversion
    | Finished(errors: seq<(string, string)>, summary: Summary)

  /** `main`: read the directory, validate it, discover the video files, and
      convert them all; `calls` lists the files handed to the converter. */
  method RunCli(argv: seq<string>, typed: string, listing: Listing, convert: ConvertFile)
    returns (exit: Exit, calls: seq<Path>)
    ensures !listing.Directory? ==> exit == InvalidDirectory && calls == []
    ensures listing.Directory? && FindVideoFiles(GetDirectoryPath(argv, typed), listing) == [] ==>
              exit == NoVideoFiles && calls == []
    ensures listing.Directory? && FindVideoFiles(GetDirectoryPath(argv, typed), listing) != [] ==>
              var files := FindVideoFiles(GetDirectoryPath(argv, typed), listing);
              && calls == files
              && exit == Finished(ErrorsOf(files, convert), DisplaySummary(files, ErrorsOf(files, convert)))
  {
    var directory := GetDirectoryPath(argv, typed);
    if !listing.Directory? {
      return InvalidDirectory, [];
    }
    var files := FindVideoFiles(directory, listing);
    if files == [] {
      return NoVideoFiles, [];
    }
    var errors;
    errors, calls := ProcessFiles(files, convert);
    exit := Finished(errors, DisplaySummary(files, errors));
  }
}
