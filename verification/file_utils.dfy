/** Path naming and video-file discovery (video_to_audio/file_utils.py). */
module FileUtils {

  import opened Wrappers
  import opened Text
  import Decimal
  import Config

  /** A `pathlib.Path`: its parent directory text and its final component.
      An empty `name` stands for a path such as `.` or `/` that has none. */
  datatype Path = Path(dir: string, name: string)

  /** `str(path)`: the parent joined to the name with `/`. */
  function PathString(p: Path): (s: string) {
    if p.name == [] then (if p.dir == [] then "." else p.dir)
    else if p.dir == [] then p.name
    else p.dir + "/" + p.name
  }

  /** Index of the last `.` in `name`, or -1 when there is none. */
  function LastDot(name: string): (i: int)
    ensures -1 <= i < |name|
    ensures i >= 0 ==> name[i] == '.'
    ensures forall k :: i < k < |name| ==> name[k] != '.'
  {
    if |name| == 0 then -1
    else if name[|name| - 1] == '.' then |name| - 1
    else LastDot(name[..|name| - 1])
  }

  /** `PurePath.suffix`: from the last dot on, unless that dot opens the name
      (a hidden file) or ends it. */
  function Suffix(name: string): (r: string)
    ensures r == [] || (|r| >= 2 && r[0] == '.' && '.' !in r[1..])
    ensures |r| < |name| || r == []
    ensures r == name[|name| - |r|..]
  {
    var i := LastDot(name);
    if 0 < i < |name| - 1 then name[i..] else ""
  }

  /** `PurePath.stem`: the name without its suffix. */
  function Stem(name: string): (r: string)
    ensures r + Suffix(name) == name
    ensures name != [] ==> r != []
  {
    var i := LastDot(name);
    if 0 < i < |name| - 1 then name[..i] else name
  }

  /** Appending an extension made of a dot and dot-free text to a non-empty
      stem makes that extension the suffix and leaves the stem as it was. */
  lemma AppendedSuffix(stem: string, ext: string)
    requires stem != []
    requires |ext| >= 2 && ext[0] == '.' && '.' !in ext[1..]
    ensures Suffix(stem + ext) == ext
    ensures Stem(stem + ext) == stem
  {
    var name := stem + ext;
    assert name[|stem|] == '.';
    forall k | |stem| < k < |name|
      ensures name[k] != '.'
    {
      assert name[k] == ext[1..][k - |stem| - 1];
    }
    assert LastDot(name) == |stem|;
  }

  /** The message of the `ValueError` `with_suffix` raises for a path with an
      empty name (the POSIX `repr` of the path). */
  function EmptyNameMessage(p: Path): string {
    "PosixPath('" + PathString(p) + "') has an empty name"
  }

  /** `get_output_path`: the same directory and stem, with the last suffix
      replaced by `.m4a`. */
  function GetOutputPath(input: Path): (r: Result<Path>)
    ensures r.Error? <==> input.name == []
    ensures r.Error? ==> r.message == EmptyNameMessage(input)
    ensures r.Ok? ==> && r.value.dir == input.dir
                      && Suffix(r.value.name) == Config.OutputExtension
                      && Stem(r.value.name) == Stem(input.name)
  {
    if input.name == [] then Error(EmptyNameMessage(input))
    else
      var name := Stem(input.name) + Config.OutputExtension;
      AppendedSuffix(Stem(input.name), Config.OutputExtension);
      Ok(Path(input.dir, name))
  }

  /** Deriving an output path from an output path changes nothing. */
  lemma OutputPathIdempotent(input: Path)
    requires input.name != []
    ensures GetOutputPath(GetOutputPath(input).value) == GetOutputPath(input)
  {
  }

  /** Two inputs that differ only in their suffix are given the same output
      path, so the later conversion overwrites the earlier one's result. */
  lemma SharedStemSharesOutput(dir: string, stem: string, ext1: string, ext2: string)
    requires stem != []
    requires |ext1| >= 2 && ext1[0] == '.' && '.' !in ext1[1..]
    requires |ext2| >= 2 && ext2[0] == '.' && '.' !in ext2[1..]
    ensures GetOutputPath(Path(dir, stem + ext1)) == GetOutputPath(Path(dir, stem + ext2))
  {
    AppendedSuffix(stem, ext1);
    AppendedSuffix(stem, ext2);
  }

  /** The file name `<stem>.temp<n>.m4a`. */
  function TempFileName(stem: string, n: int): string {
    stem + (".temp" + Decimal.IntToString(n) + Config.OutputExtension)
  }

  /** `get_temp_path`: `<stem>.temp<n>.m4a` beside the base path for `n` of
      1 or 2; any other number raises `ValueError`. */
  function GetTempPath(base: Path, n: int): (r: Result<Path>)
    ensures r.Ok? <==> n == 1 || n == 2
    ensures r.Ok? ==> && r.value.dir == base.dir
                      && Suffix(r.value.name) == Config.OutputExtension
                      && Stem(r.value.name) == Stem(base.name) + ".temp" + Decimal.IntToString(n)
    ensures r.Error? ==> r.message == "Invalid temp_number: " + Decimal.IntToString(n) + ". Must be 1 or 2."
  {
    if n == 1 || n == 2 then
      TempFileNameParts(Stem(base.name), n);
      Ok(Path(base.dir, TempFileName(Stem(base.name), n)))
    else
      Error("Invalid temp_number: " + Decimal.IntToString(n) + ". Must be 1 or 2.")
  }

  /** Splits a temp name into its stem and its `.m4a` suffix. */
  lemma TempFileNameParts(stem: string, n: int)
    ensures var t := stem + ".temp" + Decimal.IntToString(n);
            && Suffix(TempFileName(stem, n)) == Config.OutputExtension
            && Stem(TempFileName(stem, n)) == t
  {
    var t := stem + ".temp" + Decimal.IntToString(n);
    assert TempFileName(stem, n) == t + Config.OutputExtension;
    AppendedSuffix(t, Config.OutputExtension);
  }

  /** The temporary names are the stem followed by the configured temp suffixes. */
  lemma TempNames(base: Path)
    ensures GetTempPath(base, 1).value.name == Stem(base.name) + Config.TempSuffix1
    ensures GetTempPath(base, 2).value.name == Stem(base.name) + Config.TempSuffix2
  {
    TempPathName(base, 1);
    TempPathName(base, 2);
    ConfiguredTempSuffixes(Stem(base.name));
  }

  lemma TempPathName(base: Path, n: int)
    requires n == 1 || n == 2
    ensures GetTempPath(base, n) == Ok(Path(base.dir, TempFileName(Stem(base.name), n)))
  {
  }

  lemma ConfiguredTempSuffixes(stem: string)
    ensures TempFileName(stem, 1) == stem + Config.TempSuffix1
    ensures TempFileName(stem, 2) == stem + Config.TempSuffix2
  {
    Decimal.SmallNumbers();
  }

  /** Two paths in the same directory with different non-empty names print
      differently. */
  lemma SiblingStringsDiffer(dir: string, a: string, b: string)
    requires a != [] && b != [] && a != b
    ensures PathString(Path(dir, a)) != PathString(Path(dir, b))
  {
    if dir != [] {
      var pre := dir + "/";
      assert PathString(Path(dir, a)) == pre + a;
      assert PathString(Path(dir, b)) == pre + b;
      assert (pre + a)[|pre|..] == a;
      assert (pre + b)[|pre|..] == b;
    }
  }

  /** The two temporary paths differ from each other and from the path they
      are derived from. */
  lemma TempPathsDistinct(base: Path)
    ensures PathString(GetTempPath(base, 1).value) != PathString(GetTempPath(base, 2).value)
    ensures PathString(GetTempPath(base, 1).value) != PathString(base)
    ensures PathString(GetTempPath(base, 2).value) != PathString(base)
  {
    var t1 := GetTempPath(base, 1).value;
    var t2 := GetTempPath(base, 2).value;
    Decimal.ParseIntToString(1);
    Decimal.ParseIntToString(2);
    assert Stem(t1.name) != Stem(t2.name) by {
      assert Stem(t1.name)[|Stem(base.name)| + 5..] == Decimal.IntToString(1);
      assert Stem(t2.name)[|Stem(base.name)| + 5..] == Decimal.IntToString(2);
    }
    SiblingStringsDiffer(base.dir, t1.name, t2.name);
    if base.name == [] {
      assert |PathString(t1)| > |PathString(base)| || PathString(t1) != PathString(base) by {
        if base.dir == [] {
          assert PathString(base) == ".";
          assert |t1.name| > 1;
        }
      }
      assert |PathString(t2)| > |PathString(base)| || PathString(t2) != PathString(base) by {
        if base.dir == [] {
          assert PathString(base) == ".";
          assert |t2.name| > 1;
        }
      }
    } else {
      // A temp name's stem is strictly longer than the base's own stem.
      assert |Stem(t1.name)| > |Stem(base.name)|;
      assert |Stem(t2.name)| > |Stem(base.name)|;
      SiblingStringsDiffer(base.dir, t1.name, base.name);
      SiblingStringsDiffer(base.dir, t2.name, base.name);
    }
  }

  /** One entry of a directory listing: its name and whether it is a regular file. */
  datatype Entry = Entry(name: string, isFile: bool)

  /** What the file system reports for the directory to scan. */
  datatype Listing = Missing | NotADirectory | Directory(entries: seq<Entry>)

  /** A regular file whose lower-cased suffix is a supported video extension. */
  predicate IsVideoFile(e: Entry) {
    e.isFile && Lower(Suffix(e.name)) in Config.SupportedVideoExtensions
  }

  /** Some video entry of the listing carries this name. */
  ghost predicate HasVideoEntry(entries: seq<Entry>, name: string) {
    exists i :: 0 <= i < |entries| && IsVideoFile(entries[i]) && entries[i].name == name
  }

  /** The video entries of a listing, in listing order, as paths in `dir`. */
  function VideoPaths(dir: string, entries: seq<Entry>): (r: seq<Path>)
    ensures |r| <= |entries|
  {
    if |entries| == 0 then []
    else if IsVideoFile(entries[0]) then [Path(dir, entries[0].name)] + VideoPaths(dir, entries[1..])
    else VideoPaths(dir, entries[1..])
  }

  /** The filter keeps exactly the video entries: nothing added, nothing dropped. */
  lemma {:induction false} VideoPathsMembers(dir: string, entries: seq<Entry>, p: Path)
    ensures p in VideoPaths(dir, entries) <==> p.dir == dir && HasVideoEntry(entries, p.name)
  {
    if |entries| > 0 {
      VideoPathsMembers(dir, entries[1..], p);
      HasVideoEntryCons(entries, p.name);
    }
  }

  lemma HasVideoEntryCons(entries: seq<Entry>, name: string)
    requires |entries| > 0
    ensures HasVideoEntry(entries, name) <==>
              (IsVideoFile(entries[0]) && entries[0].name == name) || HasVideoEntry(entries[1..], name)
  {
    if HasVideoEntry(entries, name) {
      var i :| 0 <= i < |entries| && IsVideoFile(entries[i]) && entries[i].name == name;
      if i > 0 {
        assert entries[1..][i - 1] == entries[i];
      }
    }
    if HasVideoEntry(entries[1..], name) {
      var i :| 0 <= i < |entries[1..]| && IsVideoFile(entries[1..][i]) && entries[1..][i].name == name;
      assert entries[i + 1] == entries[1..][i];
    }
  }

  /** The key the discovered files are sorted on: the lower-cased name. */
  function NameKey(p: Path): string {
    Lower(p.name)
  }

  /** Each path's key is at most the next one's. */
  predicate SortedByName(ps: seq<Path>) {
    forall i :: 0 <= i < |ps| - 1 ==> LexLe(NameKey(ps[i]), NameKey(ps[i + 1]))
  }

  /** Inserts `p` before the first element whose key is not smaller. */
  function InsertByName(p: Path, ps: seq<Path>): (r: seq<Path>)
    requires SortedByName(ps)
    ensures SortedByName(r)
    ensures multiset(r) == multiset(ps) + multiset{p}
    ensures r[0] == p || (|ps| > 0 && r[0] == ps[0])
  {
    if |ps| == 0 || LexLe(NameKey(p), NameKey(ps[0])) then [p] + ps
    else
      LexLeTotal(NameKey(p), NameKey(ps[0]));
      var rest := ps[1..];
      assert ps == [ps[0]] + rest;
      assert SortedByName(rest) by {
        forall i | 0 <= i < |rest| - 1
          ensures LexLe(NameKey(rest[i]), NameKey(rest[i + 1]))
        {
          assert rest[i] == ps[i + 1] && rest[i + 1] == ps[i + 2];
        }
      }
      var inserted := InsertByName(p, rest);
      assert LexLe(NameKey(ps[0]), NameKey(inserted[0]));
      [ps[0]] + inserted
  }

  /** Python's stable sort on the lower-cased name, as an insertion sort. */
  function SortByName(ps: seq<Path>): (r: seq<Path>)
    ensures SortedByName(r)
    ensures multiset(r) == multiset(ps)
  {
    if |ps| == 0 then []
    else
      assert ps == [ps[0]] + ps[1..];
      InsertByName(ps[0], SortByName(ps[1..]))
  }

  /** Non-decreasing neighbours make every earlier key at most every later one. */
  lemma {:induction false} SortedPairwise(ps: seq<Path>, i: int, j: int)
    requires SortedByName(ps)
    requires 0 <= i <= j < |ps|
    ensures LexLe(NameKey(ps[i]), NameKey(ps[j]))
    decreases j - i
  {
    if i == j {
      LexLeReflexive(NameKey(ps[i]));
    } else {
      SortedPairwise(ps, i + 1, j);
      LexLeTransitive(NameKey(ps[i]), NameKey(ps[i + 1]), NameKey(ps[j]));
    }
  }

  /** `find_video_files`: nothing for a missing path or a non-directory;
      otherwise a reordering of the video entries, sorted by lower-cased name. */
  function FindVideoFiles(dir: string, listing: Listing): (r: seq<Path>)
    ensures !listing.Directory? ==> r == []
    ensures listing.Directory? ==> && multiset(r) == multiset(VideoPaths(dir, listing.entries))
                                   && SortedByName(r)
  {
    match listing
    case Directory(entries) => SortByName(VideoPaths(dir, entries))
    case _ => []
  }

  /** A discovered path is a video entry of the listing, and every video
      entry of the listing is discovered. */
  lemma FoundExactlyTheVideoFiles(dir: string, entries: seq<Entry>, p: Path)
    ensures p in FindVideoFiles(dir, Directory(entries)) <==> p.dir == dir && HasVideoEntry(entries, p.name)
  {
    var r := FindVideoFiles(dir, Directory(entries));
    var v := VideoPaths(dir, entries);
    assert p in r <==> p in multiset(r);
    assert p in v <==> p in multiset(v);
    VideoPathsMembers(dir, entries, p);
  }

  /** The suffix test ignores case but does not count a leading dot. */
  lemma SuffixTestExamples()
    ensures IsVideoFile(Entry("clip.MP4", true))
    ensures !IsVideoFile(Entry("clip.mp4", false))
    ensures !IsVideoFile(Entry(".mp4", true))
  {
    UpperCaseSuffix();
    HiddenFileHasNoSuffix();
  }

  lemma UpperCaseSuffix()
    ensures Lower(Suffix("clip.MP4")) == ".mp4"
  {
    AppendedSuffix("clip", ".MP4");
    assert "clip" + ".MP4" == "clip.MP4";
    assert Lower(".MP4") == ".mp4";
  }

  lemma HiddenFileHasNoSuffix()
    ensures Suffix(".mp4") == ""
  {
    var i := LastDot(".mp4");
    assert ".mp4"[0] == '.';
    assert ".mp4"[1] != '.' && ".mp4"[2] != '.' && ".mp4"[3] != '.';
    assert i == 0;
  }
}
