/** `download_yt_video`: fetch one 10-second segment with three chained
    `ffmpeg` calls (audio, video, then the mux of the two), after deleting
    whatever the three output paths held. */
module Segment {
  import opened Host
  import opened Text
  import opened Invoker

  /** The segment length the downloader asks ffmpeg for (`duration = 10`). */
  const SegmentSeconds: real := 10.0

  /** `audio_info['channels']`, the value both `-ac` options carry. */
  const AudioChannels: real := 2.0

  /** The `ffmpeg_cfg` options the downloader reads. */
  datatype MediaConfig = MediaConfig(
    audioCodec: string,
    audioFormat: string,
    audioSampleRate: int,
    audioBitDepth: int,
    videoCodec: string,
    videoFormat: string,
    videoFrameRate: int,
    numRetries: int)

  /** Collaborators outside the core: the tool, `get_media_filename` from
      utils, and the stream URL lookup (None where it raises). */
  datatype Services = Services(
    tool: Tool,
    mediaName: (string, real, real) -> string,
    streamUrl: string -> Option<string>)

  datatype SegmentPaths = SegmentPaths(muxed: Path, video: Path, audio: Path)

  /** `<dir>/video_audio/<name>.<vf>`, `<dir>/video/<name>.<vf>`,
      `<dir>/audio/<name>.<af>`. */
  function OutputPaths(mediaName: (string, real, real) -> string, outputDir: Path,
                       ytid: string, start: real, end: real,
                       videoFormat: string, audioFormat: string): SegmentPaths
  {
    var name := mediaName(ytid, start, end);
    SegmentPaths(
      Join(Join(outputDir, "video_audio"), name + "." + videoFormat),
      Join(Join(outputDir, "video"), name + "." + videoFormat),
      Join(Join(outputDir, "audio"), name + "." + audioFormat))
  }

  // ---------------------------------------------------------------------
  // The three calls

  function AudioInputArgs(start: real): seq<Token> {
    [Lit("-n"), Lit("-ss"), Num(start)]
  }

  function AudioOutputArgs(cfg: MediaConfig): seq<Token> {
    [Lit("-t"), Num(SegmentSeconds),
     Lit("-ar"), Num(cfg.audioSampleRate as real),
     Lit("-vn"),
     Lit("-ac"), Num(AudioChannels),
     Lit("-sample_fmt"), Lit("s" + IntText(cfg.audioBitDepth)),
     Lit("-f"), Lit(cfg.audioFormat),
     Lit("-acodec"), Lit(cfg.audioCodec)]
  }

  function VideoInputArgs(start: real): seq<Token> {
    [Lit("-n"), Lit("-ss"), Num(start)]
  }

  function VideoOutputArgs(cfg: MediaConfig): seq<Token> {
    [Lit("-t"), Num(SegmentSeconds),
     Lit("-f"), Lit(cfg.videoFormat),
     Lit("-crf"), Num(0.0),
     Lit("-preset"), Lit("medium"),
     Lit("-r"), Num(cfg.videoFrameRate as real),
     Lit("-an"),
     Lit("-vcodec"), Lit(cfg.videoCodec)]
  }

  function MuxInputArgs(): seq<Token> {
    [Lit("-n")]
  }

  function MuxOutputArgs(cfg: MediaConfig): seq<Token> {
    [Lit("-f"), Lit(cfg.videoFormat),
     Lit("-r"), Num(cfg.videoFrameRate as real),
     Lit("-vcodec"), Lit(cfg.videoCodec),
     Lit("-acodec"), Lit("aac"),
     Lit("-ar"), Num(cfg.audioSampleRate as real),
     Lit("-ac"), Num(AudioChannels),
     Lit("-strict"), Lit("experimental")]
  }

  function AudioCall(ffmpegPath: Path, url: string, p: SegmentPaths, cfg: MediaConfig): Invocation {
    Invocation(ffmpegPath, Single(url), p.audio, "error", cfg.numRetries, false)
  }

  function VideoCall(ffmpegPath: Path, url: string, p: SegmentPaths, cfg: MediaConfig): Invocation {
    Invocation(ffmpegPath, Single(url), p.video, "error", cfg.numRetries, false)
  }

  function MuxCall(ffmpegPath: Path, p: SegmentPaths, cfg: MediaConfig): Invocation {
    Invocation(ffmpegPath, Several([p.video, p.audio]), p.muxed, "error", cfg.numRetries, false)
  }

  // ---------------------------------------------------------------------
  // The protocol

  /** What `download_yt_video` returns: `(None, None)` for a malformed id, or
      `(video_filepath, audio_filepath)`. */
  datatype Acquired = Malformed | Fetched(video: Path, audio: Path)

  datatype Acquisition = Acquisition(world: Snapshot, result: Result<Acquired, Exception>)

  /** The host after the three existing outputs are deleted. */
  function Cleaned(w: Snapshot, p: SegmentPaths): Snapshot {
    w.(files := w.files - {p.muxed} - {p.video} - {p.audio})
  }

  /** The whole protocol on host `w`. */
  function Acquire(svc: Services, cfg: MediaConfig, ffmpegPath: Path, ytid: string,
                   start: real, end: real, outputDir: Path, w: Snapshot): Acquisition
  {
    var p := OutputPaths(svc.mediaName, outputDir, ytid, start, end, cfg.videoFormat, cfg.audioFormat);
    var cleaned := Cleaned(w, p);
    if |ytid| != 11 then Acquisition(cleaned, Ok(Malformed))
    else match svc.streamUrl(ytid)
      case None => Acquisition(cleaned, Err(ResolutionError(ytid)))
      case Some(url) => Fetch(svc.tool, cfg, ffmpegPath, url, p, Downloaded(ytid, start, end), start, cleaned)
  }

  /** The three calls from the audio call on, for a resolved stream `url`;
      `done` is the record logged once all three have returned. */
  function Fetch(tool: Tool, cfg: MediaConfig, ffmpegPath: Path, url: string, p: SegmentPaths,
                 done: Event, start: real, w: Snapshot): Acquisition
  {
    var audio := Invoke(AudioCall(ffmpegPath, url, p, cfg), tool,
                        AudioInputArgs(start), AudioOutputArgs(cfg), w);
    if audio.status.Raised? then Acquisition(audio.state.Snap(), Err(audio.status.e))
    else if cfg.videoCodec != "h264" then
      Acquisition(audio.state.Snap(), Err(UnsupportedCodec(cfg.videoCodec)))
    else FetchVideo(tool, cfg, ffmpegPath, url, p, done, start, audio.state.Snap())
  }

  /** The video call and what follows it. */
  function FetchVideo(tool: Tool, cfg: MediaConfig, ffmpegPath: Path, url: string, p: SegmentPaths,
                      done: Event, start: real, w: Snapshot): Acquisition
  {
    var video := Invoke(VideoCall(ffmpegPath, url, p, cfg), tool,
                        VideoInputArgs(start), VideoOutputArgs(cfg), w);
    if video.status.Raised? then Acquisition(video.state.Snap(), Err(video.status.e))
    else Mux(tool, cfg, ffmpegPath, p, done, video.state.Snap())
  }

  /** The mux call, then the download record. */
  function Mux(tool: Tool, cfg: MediaConfig, ffmpegPath: Path, p: SegmentPaths,
               done: Event, w: Snapshot): Acquisition
  {
    var mux := Invoke(MuxCall(ffmpegPath, p, cfg), tool, MuxInputArgs(), MuxOutputArgs(cfg), w);
    if mux.status.Raised? then Acquisition(mux.state.Snap(), Err(mux.status.e))
    else
      var after := mux.state.Snap();
      Acquisition(after.(log := after.log + [done]), Ok(Fetched(p.video, p.audio)))
  }

  method ToArray(s: seq<Token>) returns (a: array<Token>)
    ensures fresh(a) && a[..] == s
  {
    a := new Token[|s|](i requires 0 <= i < |s| => s[i]);
  }

  /** Runs one call with fresh argument lists. */
  method Call(world: World, tool: Tool, inv: Invocation, inArgs: seq<Token>, outArgs: seq<Token>)
    returns (status: Status)
    modifies world
    ensures var run := Invoke(inv, tool, inArgs, outArgs, old(world.Snap()));
      status == run.status && world.Snap() == run.state.Snap()
  {
    var inputArgs := ToArray(inArgs);
    var outputArgs := ToArray(outArgs);
    status := Ffmpeg(world, tool, inv, inputArgs, outputArgs);
  }

  /** `download_yt_video` on the host. */
  method DownloadSegment(world: World, svc: Services, cfg: MediaConfig, ffmpegPath: Path, ytid: string,
                         start: real, end: real, outputDir: Path)
    returns (result: Result<Acquired, Exception>)
    modifies world
    ensures Acquisition(world.Snap(), result)
         == Acquire(svc, cfg, ffmpegPath, ytid, start, end, outputDir, old(world.Snap()))
  {
    var p := OutputPaths(svc.mediaName, outputDir, ytid, start, end, cfg.videoFormat, cfg.audioFormat);
    world.RemoveIfExists(p.muxed);
    world.RemoveIfExists(p.video);
    world.RemoveIfExists(p.audio);
    if |ytid| != 11 {
      return Ok(Malformed);
    }
    var url := svc.streamUrl(ytid);
    if url.None? {
      return Err(ResolutionError(ytid));
    }
    var status := Call(world, svc.tool, AudioCall(ffmpegPath, url.value, p, cfg),
                       AudioInputArgs(start), AudioOutputArgs(cfg));
    if status.Raised? {
      return Err(status.e);
    }
    if cfg.videoCodec != "h264" {
      return Err(UnsupportedCodec(cfg.videoCodec));
    }
    status := Call(world, svc.tool, VideoCall(ffmpegPath, url.value, p, cfg),
                   VideoInputArgs(start), VideoOutputArgs(cfg));
    if status.Raised? {
      return Err(status.e);
    }
    status := Call(world, svc.tool, MuxCall(ffmpegPath, p, cfg), MuxInputArgs(), MuxOutputArgs(cfg));
    if status.Raised? {
      return Err(status.e);
    }
    world.Log(Downloaded(ytid, start, end));
    result := Ok(Fetched(p.video, p.audio));
  }
}
