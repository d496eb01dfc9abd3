/**
 * The audio-format decision made before transcription: a `.wav` file
 * that `ffprobe` reports as 16-bit PCM, 16 kHz, mono is used as it is;
 * anything else is transcoded by `ffmpeg` into a fresh `.wav` file in the
 * temporary directory. The subprocesses are foreign: their outcomes are
 * inputs of the model.
 */
module AudioFormat {
  import opened Wrappers
  import opened Text

  // `WHISPER_FORMAT`
  const WhisperContainer: string := "wav"
  const WhisperCodec: string := "pcm_s16le"
  const WhisperSampleRate: nat := 16000
  const WhisperChannels: nat := 1

  const FfmpegFailure: string := "FFmpeg failed to transcode audio: "
  const FfprobeFailure: string := "FFprobe failed: "

  /** A `subprocess.run(..., check=True)` of ffprobe: the decoded stdout, or the decoded stderr of a failure. */
  datatype ProbeResult = ProbeOk(stdout: string) | ProbeFailed(stderr: string)

  /** A `subprocess.run(..., check=True)` of ffmpeg. */
  datatype RunResult = RunOk | RunFailed(stderr: string)

  /** The three lines ffprobe prints for a stream already in the Whisper format. */
  const CompatibleProbeOutput: string := WhisperCodec + "\n16000\n1"

  /**
   * `is_whisper_compatible_wav`: the stripped probe output must unpack into
   * exactly three lines; any other count, or a failed probe, is `False`.
   */
  function IsWhisperCompatibleWav(probe: ProbeResult): (r: bool)
    ensures r <==> probe.ProbeOk? && Strip(probe.stdout) == CompatibleProbeOutput
  {
    match probe
    case ProbeFailed(_) => false
    case ProbeOk(out) =>
      var lines := Split(Strip(out), '\n');
      JoinSplit(Strip(out), '\n');
      CompatibleLines();
      if |lines| != 3 then false
      else
        Join3("\n", lines[0], lines[1], lines[2]);
        assert lines == [lines[0], lines[1], lines[2]];
        lines[0] == WhisperCodec && lines[1] == "16000" && lines[2] == "1"
  }

  lemma CompatibleLines()
    ensures Split(CompatibleProbeOutput, '\n') == [WhisperCodec, "16000", "1"]
  {
    var xs := [WhisperCodec, "16000", "1"];
    assert forall i :: 0 <= i < 3 ==> '\n' !in xs[i];
    SplitJoin(xs, '\n');
    assert CompatibleProbeOutput == WhisperCodec + "\n" + "16000" + "\n" + "1";
    Join3("\n", WhisperCodec, "16000", "1");
  }

  /** `os.path.join(a, b)` for two components. */
  function JoinPath(a: string, b: string): string {
    if b != [] && b[0] == '/' then b
    else if a == [] || a[|a| - 1] == '/' then a + b
    else a + "/" + b
  }

  /** The fresh output file: `<temp dir>/<uuid>.wav`. */
  function OutputPath(tempDir: string, id: string): string {
    JoinPath(tempDir, id + "." + WhisperContainer)
  }

  function FfmpegCommand(inputPath: string, outputPath: string): seq<string> {
    ["ffmpeg", "-y", "-i", inputPath, "-acodec", WhisperCodec,
     "-ar", NatToString(WhisperSampleRate), "-ac", NatToString(WhisperChannels), outputPath]
  }

  /** What `transcode_to_whisper_wav` did: whether it probed the file, the ffmpeg command it ran, and its result. */
  datatype Transcode = Transcode(probed: bool, command: Option<seq<string>>, result: Result<string, string>)

  /**
   * `transcode_to_whisper_wav`: the probe runs only for a name ending in
   * `.wav` (the `and` short-circuits); a compatible `.wav` is returned
   * unchanged; otherwise ffmpeg writes a new file, and its failure raises
   * with ffmpeg's stderr.
   */
  function TranscodeToWhisperWav(inputPath: string, probe: ProbeResult, tempDir: string, id: string, ffmpeg: RunResult): (t: Transcode)
    ensures t.probed <==> EndsWith(Lower(inputPath), ".wav")
    ensures t.command.None? <==> t.probed && IsWhisperCompatibleWav(probe)
    ensures t.command.None? ==> t.result == Ok(inputPath)
    ensures t.command.Some? ==> t.command.value == FfmpegCommand(inputPath, OutputPath(tempDir, id))
    ensures t.command.Some? && t.result.Ok? ==> t.result.value == OutputPath(tempDir, id)
    ensures t.command.Some? ==> (t.result.Ok? <==> ffmpeg.RunOk?)
    ensures t.result.Ok? ==> EndsWith(Lower(t.result.value), ".wav")
    ensures t.result.Err? ==> t.result.error == FfmpegFailure + ffmpeg.stderr
  {
    var probed := EndsWith(Lower(inputPath), ".wav");
    if probed && IsWhisperCompatibleWav(probe) then
      Transcode(true, None, Ok(inputPath))
    else
      var out := OutputPath(tempDir, id);
      OutputIsWav(tempDir, id);
      Transcode(probed, Some(FfmpegCommand(inputPath, out)),
        match ffmpeg
        case RunOk => Ok(out)
        case RunFailed(err) => Err(FfmpegFailure + err))
  }

  lemma LowerSuffix(a: string, b: string)
    requires Lower(b) == b
    ensures EndsWith(Lower(a + b), b)
  {
    var l := Lower(a + b);
    assert l[|l| - |b|..] == b by {
      forall i | 0 <= i < |b|
        ensures l[|l| - |b|..][i] == b[i]
      {
        assert (a + b)[|a| + i] == b[i];
        assert LowerChar(b[i]) == Lower(b)[i];
      }
    }
  }

  /** The transcoder's output is always a `.wav` name. */
  lemma OutputIsWav(tempDir: string, id: string)
    ensures EndsWith(Lower(OutputPath(tempDir, id)), ".wav")
  {
    var name := id + ".wav";
    var p := OutputPath(tempDir, id);
    assert Lower(".wav") == ".wav";
    if name[0] == '/' {
      assert p == id + ".wav";
    } else if tempDir == [] || tempDir[|tempDir| - 1] == '/' {
      assert p == (tempDir + id) + ".wav";
    } else {
      assert p == (tempDir + "/" + id) + ".wav";
    }
    assert exists pre :: p == pre + ".wav";
    var pre :| p == pre + ".wav";
    LowerSuffix(pre, ".wav");
  }

  /**
   * The file ffmpeg is asked to write is one the compatibility check
   * accepts, when ffprobe reports back the codec, rate and channel count
   * the command requested.
   */
  lemma CommandMatchesCheck(inputPath: string, outputPath: string)
    ensures var c := FfmpegCommand(inputPath, outputPath);
      c[4] == "-acodec" && c[6] == "-ar" && c[8] == "-ac"
      && IsWhisperCompatibleWav(ProbeOk(c[5] + "\n" + c[7] + "\n" + c[9]))
  {
    var c := FfmpegCommand(inputPath, outputPath);
    assert NatToString(1) == "1";
    assert NatToString(16) == "16";
    assert NatToString(160) == "160";
    assert NatToString(1600) == "1600";
    assert NatToString(16000) == "16000";
    assert c[5] + "\n" + c[7] + "\n" + c[9] == CompatibleProbeOutput;
    NoSpaceAtEndsStrip(CompatibleProbeOutput);
  }

  // ---------------------------------------------------------------- detect_codec_with_ffprobe

  /** `s.rfind(c)` */
  function RFind(s: string, c: char): (k: int)
    ensures -1 <= k < |s|
    ensures k >= 0 ==> s[k] == c
    ensures forall i :: k < i < |s| ==> s[i] != c
  {
    if s == [] then -1 else if s[|s| - 1] == c then |s| - 1 else RFind(s[..|s| - 1], c)
  }

  predicate HasNonDot(p: string, lo: int, hi: int)
    requires -1 <= lo && hi <= |p|
  {
    exists i :: lo < i < hi && p[i] != '.'
  }

  /**
   * `os.path.splitext(p)[-1]`: from the last dot of the last path
   * component, unless everything before that dot in the component is dots.
   */
  function Extension(p: string): (ext: string)
    ensures EndsWith(p, ext)
    ensures ext != [] ==> ext[0] == '.' && '/' !in ext && '.' !in ext[1..]
  {
    var sep := RFind(p, '/');
    var dot := RFind(p, '.');
    if dot > sep && HasNonDot(p, sep, dot) then
      ExtensionShape(p, sep, dot);
      p[dot..]
    else []
  }

  lemma ExtensionShape(p: string, sep: int, dot: int)
    requires -1 <= sep < dot < |p| && p[dot] == '.'
    requires forall i :: sep < i < |p| ==> p[i] != '/'
    requires forall i :: dot < i < |p| ==> p[i] != '.'
    ensures '/' !in p[dot..] && '.' !in p[dot..][1..]
  {
    forall i | 0 <= i < |p[dot..]|
      ensures p[dot..][i] != '/'
    {
      assert p[dot..][i] == p[dot + i];
    }
    forall i | 0 <= i < |p[dot..][1..]|
      ensures p[dot..][1..][i] != '.'
    {
      assert p[dot..][1..][i] == p[dot + 1 + i];
    }
  }

  /** `detect_codec_with_ffprobe`: the lower-cased extension and the stripped codec line, or the probe's failure. */
  function DetectCodec(inputPath: string, probe: ProbeResult): (r: Result<(string, string), string>)
    ensures r.Ok? <==> probe.ProbeOk?
    ensures r.Ok? ==> r.value.0 == Lower(Extension(inputPath)) && NoSpaceAtEnds(r.value.1)
    ensures r.Ok? ==> r.value.1 == Strip(probe.stdout)
    ensures r.Err? ==> r.error == FfprobeFailure + probe.stderr
  {
    match probe
    case ProbeOk(out) => Ok((Lower(Extension(inputPath)), Strip(out)))
    case ProbeFailed(err) => Err(FfprobeFailure + err)
  }

  lemma {:induction false} RFindSkips(a: string, b: string, c: char)
    requires c !in b
    ensures RFind(a + b, c) == RFind(a, c)
    decreases |b|
  {
    if b == [] {
      assert a + b == a;
    } else {
      assert (a + b)[..|a + b| - 1] == a + b[..|b| - 1];
      RFindSkips(a, b[..|b| - 1], c);
    }
  }

  /** A transcoded file reports `.wav` as its format, for a uuid without dots or slashes. */
  lemma OutputExtension(tempDir: string, id: string)
    requires id != [] && '.' !in id && '/' !in id
    ensures Extension(OutputPath(tempDir, id)) == ".wav"
  {
    var p := OutputPath(tempDir, id);
    var pre := if tempDir == [] || tempDir[|tempDir| - 1] == '/' then tempDir else tempDir + "/";
    assert p == pre + id + ".wav";
    assert p == (pre + id) + "." + "wav";
    RFindSkips(pre + id + ".", "wav", '.');
    assert RFind(pre + id + ".", '.') == |pre + id|;
    assert (pre + id) + "." + "wav" == (pre + id + ".") + "wav";
    var dot := RFind(p, '.');
    assert dot == |pre| + |id|;
    assert p == pre + (id + ".wav");
    assert '/' !in id + ".wav";
    RFindSkips(pre, id + ".wav", '/');
    var sep := RFind(p, '/');
    assert sep < |pre|;
    assert p[|pre|] == id[0] != '.';
    assert HasNonDot(p, sep, dot);
    assert p[dot..] == ".wav";
  }
}
