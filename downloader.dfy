/**
 * The downloader (src/downloader/VideoDownloader.ts): where its tools and its output live,
 * the file names it derives from a timestamp, the single yt-dlp command it runs, and the
 * existence check that decides success. The subprocess, the clock and the file system are
 * parameters; the file system is the set of paths that exist.
 */
module Downloader {
  import opened Wrappers
  import opened Text

  /** The directories and files that exist. */
  class FileSystem {
    var paths: set<string>

    constructor (initial: set<string>)
      ensures paths == initial
    {
      paths := initial;
    }

    predicate Exists(path: string)
      reads this
    {
      path in paths
    }

    /** `fs.mkdirSync(path, { recursive: true })` (the parents it would also create are not
        tracked). */
    method MakeDirectory(path: string)
      modifies this
      ensures paths == old(paths) + {path}
    {
      paths := paths + {path};
    }
  }

  /** `path.join`'s separator on each platform. */
  function Separator(onWindows: bool): string {
    if onWindows then "\\" else "/"
  }

  /** `path.join(dir, name)` for a directory that does not end in a separator. */
  function PathJoin(onWindows: bool, dir: string, name: string): string {
    dir + Separator(onWindows) + name
  }

  /** What running the command gives: it exits normally with its two output streams, or
      `exec` rejects with an error. */
  datatype ExecOutcome = Exited(stdout: string, stderr: string) | Failed(msg: string)

  /** The commands run and the path returned or message thrown. */
  datatype DownloadRun = DownloadRun(commands: seq<string>, result: Attempt<string>)

  const ArtifactMissing := "Failed to find the downloaded audio file."
  const ExtractorArgs := "--extractor-args " + Quote("youtube:player_client=android,web_embedded")
  const AudioArgs := "-x --audio-format mp3"
  const PostprocessorArgs := "--postprocessor-args " + Quote("ffmpeg:-ar 16000 -ac 1 -b:a 64k")
  const ExtPlaceholder := "%(ext)s"

  class VideoDownloader {
    /** Stands for `process.platform === 'win32'`, which `path.join` also consults. */
    const onWindows: bool
    const ytDlpPath: string
    const ffmpegPath: string
    const outputDir: string

    /**
     * On Windows the bundled `bin/yt-dlp.exe` and the `bin` directory for ffmpeg; elsewhere
     * `yt-dlp` from the system path and no ffmpeg location. The output directory is
     * `data/downloads` under the package root, created when missing. `packageRoot` is the
     * resolved directory two levels above the module.
     */
    constructor (onWindows: bool, packageRoot: string, fs: FileSystem)
      modifies fs
      ensures this.onWindows == onWindows
      ensures ytDlpPath == (if onWindows then PathJoin(onWindows, PathJoin(onWindows, packageRoot, "bin"), "yt-dlp.exe")
                            else "yt-dlp")
      ensures ffmpegPath == (if onWindows then PathJoin(onWindows, packageRoot, "bin") else "")
      ensures outputDir == PathJoin(onWindows, PathJoin(onWindows, packageRoot, "data"), "downloads")
      ensures fs.paths == old(fs.paths) + {outputDir}
    {
      this.onWindows := onWindows;
      ytDlpPath := if onWindows then PathJoin(onWindows, PathJoin(onWindows, packageRoot, "bin"), "yt-dlp.exe")
                   else "yt-dlp";
      ffmpegPath := if onWindows then PathJoin(onWindows, packageRoot, "bin") else "";
      outputDir := PathJoin(onWindows, PathJoin(onWindows, packageRoot, "data"), "downloads");
      new;
      if !fs.Exists(outputDir) {
        fs.MakeDirectory(outputDir);
      }
    }

    /** `outputDir/audio_<timestamp>.`: what the template and the artifact share. */
    function Stem(timestamp: nat): string {
      PathJoin(onWindows, outputDir, "audio_" + NatToString(timestamp) + ".")
    }

    /** The `--output` template handed to yt-dlp, which fills in the extension:
        `outputDir/audio_<timestamp>.%(ext)s`. */
    function OutputTemplate(timestamp: nat): (t: string)
      ensures t == AudioPrefix() + NatToString(timestamp) + ("." + ExtPlaceholder)
    {
      Stem(timestamp) + ExtPlaceholder
    }

    /** The file the download is expected to produce: `outputDir/audio_<timestamp>.mp3`. */
    function FinalPath(timestamp: nat): (path: string)
      ensures path == AudioPrefix() + NatToString(timestamp) + ".mp3"
    {
      Stem(timestamp) + "mp3"
    }

    /** `--ffmpeg-location "<dir>"`, or nothing when no ffmpeg directory is configured. */
    function FfmpegLocationArg(): string {
      if ffmpegPath != "" then "--ffmpeg-location " + Quote(ffmpegPath) else ""
    }

    /** The pieces of the command line in the order the source's template writes them; they are
        joined by single spaces, so an empty ffmpeg argument leaves two spaces. */
    function CommandSegments(url: string, timestamp: nat): seq<string> {
      [Quote(ytDlpPath), ExtractorArgs, AudioArgs, FfmpegLocationArg(), PostprocessorArgs,
       "--output " + Quote(OutputTemplate(timestamp)), Quote(url)]
    }

    function Command(url: string, timestamp: nat): string {
      JoinWith(CommandSegments(url, timestamp), " ")
    }

    /**
     * `downloadAudio(url)` at time `timestamp`: one yt-dlp run, `run` giving its outcome and
     * `present` the paths that exist afterwards. A failed run's error is rethrown unchanged;
     * after a normal exit, whatever it wrote to stderr, the call returns the expected path if it
     * exists and throws otherwise.
     */
    function DownloadAudio(url: string, timestamp: nat, run: string -> ExecOutcome,
                           present: set<string>): (r: DownloadRun)
      ensures r.commands == [Command(url, timestamp)]
      ensures run(Command(url, timestamp)).Failed? ==> r.result == Err(run(Command(url, timestamp)).msg)
      ensures run(Command(url, timestamp)).Exited? ==>
        (r.result.Ok? <==> FinalPath(timestamp) in present)
      ensures r.result.Ok? ==> r.result.value == FinalPath(timestamp)
      ensures r.result.Err? && run(Command(url, timestamp)).Exited? ==> r.result.msg == ArtifactMissing
    {
      var command := Command(url, timestamp);
      match run(command)
      case Failed(m) => DownloadRun([command], Err(m))
      case Exited(_, _) =>
        var finalPath := FinalPath(timestamp);
        if finalPath in present then DownloadRun([command], Ok(finalPath))
        else DownloadRun([command], Err(ArtifactMissing))
    }

    /** `outputDir/audio_`: what every artifact name of this downloader starts with. */
    function AudioPrefix(): string {
      outputDir + Separator(onWindows) + "audio_"
    }

    /** The artifact is the template with yt-dlp's extension placeholder filled in with `mp3`,
        under the output directory. */
    lemma ArtifactFillsTemplate(timestamp: nat)
      ensures var t := OutputTemplate(timestamp);
        EndsWith(t, ExtPlaceholder) && FinalPath(timestamp) == t[..|t| - |ExtPlaceholder|] + "mp3"
      ensures StartsAt(FinalPath(timestamp), 0, AudioPrefix())
    {
      var t := OutputTemplate(timestamp);
      assert t[..|t| - |ExtPlaceholder|] == Stem(timestamp);
      assert FinalPath(timestamp) == AudioPrefix() + (NatToString(timestamp) + ".mp3");
    }

    /** Distinct timestamps give distinct artifact paths. */
    lemma DistinctTimestampsDistinctArtifacts(t1: nat, t2: nat)
      requires t1 != t2
      ensures FinalPath(t1) != FinalPath(t2)
    {
      DistinctNumbersDistinctNames(AudioPrefix(), t1, t2, ".mp3");
    }

    /** Distinct timestamps give distinct output templates. */
    lemma DistinctTimestampsDistinctTemplates(t1: nat, t2: nat)
      requires t1 != t2
      ensures OutputTemplate(t1) != OutputTemplate(t2)
    {
      DistinctNumbersDistinctNames(AudioPrefix(), t1, t2, "." + ExtPlaceholder);
    }

    /** The command starts with the quoted yt-dlp path and the fixed extractor and audio
        arguments, and ends with the quoted URL. */
    lemma CommandFrame(url: string, timestamp: nat)
      ensures StartsAt(Command(url, timestamp), 0, Quote(ytDlpPath) + " " + ExtractorArgs + " " + AudioArgs + " ")
      ensures EndsWith(Command(url, timestamp), Quote(url))
    {
      var segs := CommandSegments(url, timestamp);
      JoinWithEndsWithLast(segs, " ");
      JoinWithFirstThree(segs, " ");
      var head := Quote(ytDlpPath) + " " + ExtractorArgs + " " + AudioArgs + " ";
      var c := Command(url, timestamp);
      assert c == head + JoinWith(segs[3..], " ");
      assert c[..|head|] == head;
    }

    /** The command writes to the template, passes the fixed postprocessor arguments, and
        carries an ffmpeg location argument exactly when an ffmpeg directory is configured.
        Stated over the segments: `Command` is `CommandSegments` joined by single spaces, so
        the command's arguments are these segments, in this order. */
    lemma CommandArguments(url: string, timestamp: nat)
      ensures "--output " + Quote(OutputTemplate(timestamp)) in CommandSegments(url, timestamp)
      ensures PostprocessorArgs in CommandSegments(url, timestamp)
      ensures ffmpegPath != "" ==> "--ffmpeg-location " + Quote(ffmpegPath) in CommandSegments(url, timestamp)
      ensures ffmpegPath == "" ==>
        forall i :: 0 <= i < |CommandSegments(url, timestamp)| ==>
          !StartsAt(CommandSegments(url, timestamp)[i], 0, "--ffmpeg-location")
    {
      var segs := CommandSegments(url, timestamp);
      assert segs[5] == "--output " + Quote(OutputTemplate(timestamp));
      assert segs[4] == PostprocessorArgs;
      if ffmpegPath == "" {
        forall i | 0 <= i < |segs| ensures !StartsAt(segs[i], 0, "--ffmpeg-location") {
          NotFfmpegLocation(url, timestamp, i);
        }
      } else {
        assert segs[3] == "--ffmpeg-location " + Quote(ffmpegPath);
      }
    }

    lemma NotFfmpegLocation(url: string, timestamp: nat, i: nat)
      requires ffmpegPath == "" && i < 7
      ensures !StartsAt(CommandSegments(url, timestamp)[i], 0, "--ffmpeg-location")
    {
      var segs := CommandSegments(url, timestamp);
      var w := "--ffmpeg-location";
      if i == 0 || i == 6 { assert segs[i][0] == '"' != w[0]; }
      else if i == 1 { assert segs[i][2] == 'e' != w[2]; }
      else if i == 2 { assert segs[i][1] == 'x' != w[1]; }
      else if i == 3 { assert segs[i] == ""; }
      else if i == 4 { assert segs[i][2] == 'p' != w[2]; }
      else { assert segs[i][2] == 'o' != w[2]; }
    }
  }
}
