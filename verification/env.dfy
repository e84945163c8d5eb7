/** Locating the ffmpeg and ffprobe binaries (src/env.rs): an explicit override
    if it names a regular file, otherwise the first `PATH` directory holding
    one. The filesystem is a parameter: what `canonicalize` resolves a path to,
    and what `metadata` says about a resolved path. */
module Env {
  import opened Wrappers
  import opened Text
  import opened PlanModel

  /** The two filesystem queries the search makes: path resolution, and
      whether a resolved path is a regular file (`None` when its metadata
      cannot be read). */
  datatype FileSystem = FileSystem(canonicalize: string -> Option<string>, isFile: string -> Option<bool>)

  datatype EnvError =
    | CanonicalizeFailed(path: string)
    | MetadataFailed(path: string)
    | NotAFile(path: string)
    | NotFound(bin: string)

  /** `validate_binary`: the path must resolve, its metadata must be readable,
      and it must be a regular file; the resolved path is returned. */
  function ValidateBinary(fs: FileSystem, p: string): (r: Result<string, EnvError>)
    ensures r.Ok? <==> fs.canonicalize(p).Some? && fs.isFile(fs.canonicalize(p).value) == Some(true)
    ensures r.Ok? ==> r.value == fs.canonicalize(p).value
  {
    match fs.canonicalize(p)
    case None => Err(CanonicalizeFailed(p))
    case Some(c) =>
      match fs.isFile(c)
      case None => Err(MetadataFailed(c))
      case Some(f) => if f then Ok(c) else Err(NotAFile(c))
  }

  predicate Valid(fs: FileSystem, p: string) {
    ValidateBinary(fs, p).Ok?
  }

  /** `std::env::split_paths` on Unix: the `PATH` value split at every colon,
      an unset variable read as the empty string. */
  function SearchDirs(pathVar: Option<string>): (r: seq<string>)
    ensures |r| >= 1
  {
    SplitOn(if pathVar.Some? then pathVar.value else [], ':')
  }

  /** The candidate for each search directory, in order. */
  function Candidates(dirs: seq<string>, bin: string): (r: seq<string>)
    ensures |r| == |dirs|
  {
    seq(|dirs|, i requires 0 <= i < |dirs| => JoinPath(dirs[i], bin))
  }

  /** Reference search: the resolution of the first candidate that
      validates, or nothing. */
  function FirstValid(fs: FileSystem, cands: seq<string>): Option<string>
  {
    if |cands| == 0 then None
    else if Valid(fs, cands[0]) then Some(ValidateBinary(fs, cands[0]).value)
    else FirstValid(fs, cands[1..])
  }

  /** What the search finds for `bin`: the override's resolution if the
      override validates, else the first `PATH` candidate's, if any. */
  function Lookup(fs: FileSystem, pathVar: Option<string>, bin: string, given: Option<string>): Option<string>
  {
    if given.Some? && Valid(fs, given.value) then Some(ValidateBinary(fs, given.value).value)
    else FirstValid(fs, Candidates(SearchDirs(pathVar), bin))
  }

  /** `find_binary`: the override if it validates, else the first candidate on
      `PATH` that validates, else `NotFound`. */
  method FindBinary(fs: FileSystem, pathVar: Option<string>, bin: string, given: Option<string>)
    returns (r: Result<string, EnvError>)
    ensures given.Some? && Valid(fs, given.value) ==> r == ValidateBinary(fs, given.value)
    ensures !(given.Some? && Valid(fs, given.value)) ==>
              r == (match FirstValid(fs, Candidates(SearchDirs(pathVar), bin))
                    case Some(p) => Ok(p)
                    case None => Err(NotFound(bin)))
    ensures r.Err? ==> r.error == NotFound(bin)
    ensures r == (match Lookup(fs, pathVar, bin, given)
                  case Some(p) => Ok(p)
                  case None => Err(NotFound(bin)))
  {
    if given.Some? {
      var v := ValidateBinary(fs, given.value);
      if v.Ok? {
        return Ok(v.value);
      }
    }
    var cands := Candidates(SearchDirs(pathVar), bin);
    for i := 0 to |cands|
      invariant FirstValid(fs, cands) == FirstValid(fs, cands[i..])
    {
      assert cands[i..][1..] == cands[i + 1..];
      var v := ValidateBinary(fs, cands[i]);
      if v.Ok? {
        return Ok(v.value);
      }
    }
    assert cands[|cands|..] == [];
    return Err(NotFound(bin));
  }

  /** The reference search returns a resolved regular file, reached from the
      first candidate that validates; it finds nothing only when no candidate
      validates. */
  lemma {:induction false} FirstValidIsFirst(fs: FileSystem, cands: seq<string>)
    ensures FirstValid(fs, cands).None? <==> forall i :: 0 <= i < |cands| ==> !Valid(fs, cands[i])
    ensures FirstValid(fs, cands).Some? ==>
              exists k :: 0 <= k < |cands| && Valid(fs, cands[k])
                          && ValidateBinary(fs, cands[k]).value == FirstValid(fs, cands).value
                          && forall i :: 0 <= i < k ==> !Valid(fs, cands[i])
  {
    if |cands| > 0 && !Valid(fs, cands[0]) {
      FirstValidIsFirst(fs, cands[1..]);
      if FirstValid(fs, cands[1..]).Some? {
        var k :| 0 <= k < |cands[1..]| && Valid(fs, cands[1..][k])
                 && ValidateBinary(fs, cands[1..][k]).value == FirstValid(fs, cands[1..]).value
                 && forall i :: 0 <= i < k ==> !Valid(fs, cands[1..][i]);
        assert Valid(fs, cands[k + 1]);
        assert forall i :: 0 <= i < k + 1 ==> !Valid(fs, cands[i]) by {
          forall i | 0 <= i < k + 1 ensures !Valid(fs, cands[i]) {
            if i > 0 { assert cands[i] == cands[1..][i - 1]; }
          }
        }
      } else {
        forall i | 0 <= i < |cands| ensures !Valid(fs, cands[i]) {
          if i > 0 { assert cands[i] == cands[1..][i - 1]; }
        }
      }
    }
  }

  /** The search succeeds exactly when the override or some `PATH` candidate
      validates, and what it returns is a regular file. */
  lemma FindBinaryFound(fs: FileSystem, pathVar: Option<string>, bin: string, given: Option<string>,
                        r: Result<string, EnvError>)
    requires given.Some? && Valid(fs, given.value) ==> r == ValidateBinary(fs, given.value)
    requires !(given.Some? && Valid(fs, given.value)) ==>
               r == (match FirstValid(fs, Candidates(SearchDirs(pathVar), bin))
                     case Some(p) => Ok(p)
                     case None => Err(NotFound(bin)))
    ensures r.Ok? <==> (given.Some? && Valid(fs, given.value))
                       || exists i :: 0 <= i < |SearchDirs(pathVar)| && Valid(fs, JoinPath(SearchDirs(pathVar)[i], bin))
    ensures r.Ok? ==> fs.isFile(r.value) == Some(true)
  {
    var cands := Candidates(SearchDirs(pathVar), bin);
    FirstValidIsFirst(fs, cands);
    if !(given.Some? && Valid(fs, given.value)) && FirstValid(fs, cands).Some? {
      var k :| 0 <= k < |cands| && Valid(fs, cands[k]) && ValidateBinary(fs, cands[k]).value == FirstValid(fs, cands).value
               && forall i :: 0 <= i < k ==> !Valid(fs, cands[i]);
      assert cands[k] == JoinPath(SearchDirs(pathVar)[k], bin);
    }
    if exists i :: 0 <= i < |SearchDirs(pathVar)| && Valid(fs, JoinPath(SearchDirs(pathVar)[i], bin)) {
      var i :| 0 <= i < |SearchDirs(pathVar)| && Valid(fs, JoinPath(SearchDirs(pathVar)[i], bin));
      assert Valid(fs, cands[i]);
    }
  }

  /** With `PATH` unset the one directory searched is the empty one, so the
      only candidate is the bare binary name. */
  lemma UnsetPathSearchesBareName(bin: string)
    requires |bin| > 0 && bin[0] != Separator
    ensures Candidates(SearchDirs(None), bin) == [bin]
  {
    assert SearchDirs(None) == [[]];
    assert JoinPath([], bin) == [] + bin == bin;
  }

  /** `PATH` directories are searched in the order they are listed. */
  lemma SearchOrder(a: string, b: string, bin: string)
    requires ':' !in a && ':' !in b && |bin| > 0 && bin[0] != Separator
    requires |a| > 0 && a[|a| - 1] != Separator && |b| > 0 && b[|b| - 1] != Separator
    ensures Candidates(SearchDirs(Some(a + ":" + b)), bin) == [a + "/" + bin, b + "/" + bin]
  {
    SplitOnJoin([a, b], ':');
    assert JoinWith([a, b], [':']) == a + ":" + b by {
      assert [a, b][1..] == [b];
    }
  }

  // ---------------------------------------------------------------------
  // find_binaries and the two process-wide cells

  /** The two `OnceLock` cells. */
  datatype Located = Located(ffmpeg: Option<string>, ffprobe: Option<string>)

  /** `OnceLock::get_or_init`: the first value stored stays. */
  function GetOrInit(cell: Option<string>, v: string): (r: Option<string>)
    ensures r.Some?
    ensures cell.Some? ==> r == cell
  {
    if cell.Some? then cell else Some(v)
  }

  /** `find_binaries`: ffmpeg is located first and its failure ends the call
      before ffprobe is looked for; on success both cells are filled unless
      they already held a value. */
  method FindBinaries(fs: FileSystem, pathVar: Option<string>, ffmpegGiven: Option<string>,
                      ffprobeGiven: Option<string>, cells: Located)
    returns (r: Result<Located, EnvError>)
    ensures r.Err? <==> ((!(ffmpegGiven.Some? && Valid(fs, ffmpegGiven.value))
                          && FirstValid(fs, Candidates(SearchDirs(pathVar), "ffmpeg")).None?)
                         || (!(ffprobeGiven.Some? && Valid(fs, ffprobeGiven.value))
                             && FirstValid(fs, Candidates(SearchDirs(pathVar), "ffprobe")).None?))
    ensures r.Err? ==> r.error == NotFound("ffmpeg") || r.error == NotFound("ffprobe")
    ensures r.Err? && r.error == NotFound("ffprobe") ==>
              (ffmpegGiven.Some? && Valid(fs, ffmpegGiven.value))
              || FirstValid(fs, Candidates(SearchDirs(pathVar), "ffmpeg")).Some?
    ensures r.Ok? ==> r.value.ffmpeg.Some? && r.value.ffprobe.Some?
    ensures r.Ok? && cells.ffmpeg.Some? ==> r.value.ffmpeg == cells.ffmpeg
    ensures r.Ok? && cells.ffprobe.Some? ==> r.value.ffprobe == cells.ffprobe
    ensures r.Ok? && cells.ffmpeg.None? ==> fs.isFile(r.value.ffmpeg.value) == Some(true)
    ensures r.Ok? && cells.ffprobe.None? ==> fs.isFile(r.value.ffprobe.value) == Some(true)
    ensures Lookup(fs, pathVar, "ffmpeg", ffmpegGiven).None? ==> r == Err(NotFound("ffmpeg"))
    ensures Lookup(fs, pathVar, "ffmpeg", ffmpegGiven).Some? ==>
              && (r.Err? <==> Lookup(fs, pathVar, "ffprobe", ffprobeGiven).None?)
              && (r.Err? ==> r.error == NotFound("ffprobe"))
    ensures r.Ok? ==> r.value.ffmpeg == (if cells.ffmpeg.Some? then cells.ffmpeg
                                         else Lookup(fs, pathVar, "ffmpeg", ffmpegGiven))
    ensures r.Ok? ==> r.value.ffprobe == (if cells.ffprobe.Some? then cells.ffprobe
                                          else Lookup(fs, pathVar, "ffprobe", ffprobeGiven))
  {
    var ffmpeg := FindBinary(fs, pathVar, "ffmpeg", ffmpegGiven);
    if ffmpeg.Err? {
      return Err(ffmpeg.error);
    }
    FindBinaryFound(fs, pathVar, "ffmpeg", ffmpegGiven, ffmpeg);
    var ffprobe := FindBinary(fs, pathVar, "ffprobe", ffprobeGiven);
    if ffprobe.Err? {
      return Err(ffprobe.error);
    }
    FindBinaryFound(fs, pathVar, "ffprobe", ffprobeGiven, ffprobe);
    return Ok(Located(GetOrInit(cells.ffmpeg, ffmpeg.value), GetOrInit(cells.ffprobe, ffprobe.value)));
  }

  /** Once both cells are set, a later successful call changes neither. */
  lemma CellsKeepFirstValue(cells: Located, a: string, b: string)
    requires cells.ffmpeg.Some? && cells.ffprobe.Some?
    ensures Located(GetOrInit(cells.ffmpeg, a), GetOrInit(cells.ffprobe, b)) == cells
  {
  }
}
