/**
 * `InputRouter.route` (router.py): a directory holding a `stems/` folder of at least three WAV files is a
 * Suno export (route A); an audio file with a known suffix is a full mix (route B). The filesystem facts
 * about the input path are inputs.
 */
module Router {
  import opened Outcome

  /** The two processing routes. */
  datatype Route = RouteA | RouteB

  /** What `route` learns about the input path from the filesystem. */
  datatype PathFacts = PathFacts(
    isDir: bool,          // `input_path.is_dir()`
    stemsDirExists: bool, // `(input_path / "stems").exists()`
    wavCount: nat,        // `len(list(stems_dir.glob("*.wav")))`
    isFile: bool,         // `input_path.is_file()`
    suffix: string)       // `input_path.suffix`

  /** The suffixes of a full mix, compared as written: `.MP3` is not among them. */
  const AUDIO_SUFFIXES: seq<string> := [".mp3", ".wav", ".flac", ".ogg", ".m4a"]

  /** The name `route` returns. */
  function RouteName(r: Route): string
  {
    match r
    case RouteA => "route_a"
    case RouteB => "route_b"
  }

  /** The route A test: a directory whose `stems/` exists and holds three WAV files or more. */
  predicate IsSunoExport(facts: PathFacts)
  {
    facts.isDir && facts.stemsDirExists && facts.wavCount >= 3
  }

  /** The route B test: a file whose suffix is one of the five audio suffixes. */
  predicate IsAudioFile(facts: PathFacts)
  {
    facts.isFile && facts.suffix in AUDIO_SUFFIXES
  }

  /** `route(input_path)`: route A is checked first; a path that passes neither test raises. */
  function RouteInput(inputPath: string, facts: PathFacts): (r: Result<Route>)
    ensures r == Ok(RouteA) <==> IsSunoExport(facts)
    ensures r == Ok(RouteB) <==> !IsSunoExport(facts) && IsAudioFile(facts)
    ensures r.Err? <==> !IsSunoExport(facts) && !IsAudioFile(facts)
    ensures r.Err? ==> r.error == FileNotFoundError("No valid input at " + inputPath)
  {
    if facts.isDir && facts.stemsDirExists && facts.wavCount >= 3 then Ok(RouteA)
    else if facts.isFile && facts.suffix in [".mp3", ".wav", ".flac", ".ogg", ".m4a"] then Ok(RouteB)
    else Err(FileNotFoundError("No valid input at " + inputPath))
  }

  /** A directory with fewer than three WAV files in `stems/`, or with no `stems/`, is no valid input. */
  lemma DirectoryWithoutStems(inputPath: string, facts: PathFacts)
    requires facts.isDir && !facts.isFile && (!facts.stemsDirExists || facts.wavCount < 3)
    ensures RouteInput(inputPath, facts) == Err(FileNotFoundError("No valid input at " + inputPath))
  {
  }

  /** The suffix test is case-sensitive: `song.MP3` is rejected while `song.mp3` is a full mix. */
  lemma SuffixCase(inputPath: string)
    ensures RouteInput(inputPath, PathFacts(false, false, 0, true, ".MP3")).Err?
    ensures RouteInput(inputPath, PathFacts(false, false, 0, true, ".mp3")) == Ok(RouteB)
  {
    assert ".MP3" != ".mp3" && ".MP3" != ".wav" && ".MP3" != ".flac" && ".MP3" != ".ogg" && ".MP3" != ".m4a" by {
      assert ".MP3"[1] == 'M';
    }
    assert AUDIO_SUFFIXES[0] == ".mp3";
  }
}
