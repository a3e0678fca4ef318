/** What `download_yt_video` promises: cleanup before the id check, no
    command for a malformed id, the codec check between the audio and the
    video call, the audio-video-mux order, and that a segment whose every
    command failed is reported like one that succeeded. */
module SegmentProperties {
  import opened Host
  import opened Text
  import opened Invoker
  import opened RetryProperties
  import opened Segment

  function PathsOf(svc: Services, cfg: MediaConfig, outputDir: Path, ytid: string, start: real, end: real)
    : SegmentPaths
  {
    OutputPaths(svc.mediaName, outputDir, ytid, start, end, cfg.videoFormat, cfg.audioFormat)
  }

  /** Each output is named `<name>.<format>` for the media name of the
      segment and the format of its stream. */
  lemma OutputPathsNaming(mediaName: (string, real, real) -> string, outputDir: Path,
                          ytid: string, start: real, end: real, videoFormat: string, audioFormat: string)
    ensures var p := OutputPaths(mediaName, outputDir, ytid, start, end, videoFormat, audioFormat);
      var name := mediaName(ytid, start, end);
      EndsWith(p.muxed, name + "." + videoFormat)
      && EndsWith(p.video, name + "." + videoFormat)
      && EndsWith(p.audio, name + "." + audioFormat)
  {
    var name := mediaName(ytid, start, end);
    JoinShape(Join(outputDir, "video_audio"), name + "." + videoFormat);
    JoinShape(Join(outputDir, "video"), name + "." + videoFormat);
    JoinShape(Join(outputDir, "audio"), name + "." + audioFormat);
  }

  /** A malformed id, or an id whose stream cannot be resolved, runs no
      command and logs nothing, yet the three outputs are already deleted. */
  lemma EarlyExitAfterCleanup(svc: Services, cfg: MediaConfig, ffmpegPath: Path, ytid: string,
                              start: real, end: real, outputDir: Path, w: Snapshot)
    requires |ytid| != 11 || svc.streamUrl(ytid).None?
    ensures var a := Acquire(svc, cfg, ffmpegPath, ytid, start, end, outputDir, w);
      var p := PathsOf(svc, cfg, outputDir, ytid, start, end);
      a.result == (if |ytid| != 11 then Ok(Malformed) else Err(ResolutionError(ytid)))
      && a.world.commands == w.commands && a.world.log == w.log
      && a.world.files == w.files - {p.muxed, p.video, p.audio}
  {
    var p := PathsOf(svc, cfg, outputDir, ytid, start, end);
    assert w.files - {p.muxed} - {p.video} - {p.audio} == w.files - {p.muxed, p.video, p.audio};
  }

  /** The commands `cs[from..]` are, in order, at most `n` audio commands,
      at most `n` video commands and at most `n` mux commands; the mux reads
      the video output, then the audio output. */
  predicate ThreeStages(cs: seq<seq<Token>>, from: nat, i: nat, j: nat,
                        ffmpegPath: Path, url: string, p: SegmentPaths, cfg: MediaConfig)
  {
    var n := if cfg.numRetries > 0 then cfg.numRetries else 0;
    from <= i <= j <= |cs|
    && i - from <= n && j - i <= n && |cs| - j <= n
    && (forall k :: from <= k < i ==>
          IssuedBy(AudioCall(ffmpegPath, url, p, cfg), [Lit("-i"), Lit(url)], 3, 13, cs[k]))
    && (forall k :: i <= k < j ==>
          IssuedBy(VideoCall(ffmpegPath, url, p, cfg), [Lit("-i"), Lit(url)], 3, 13, cs[k]))
    && (forall k :: j <= k < |cs| ==>
          IssuedBy(MuxCall(ffmpegPath, p, cfg), [Lit("-i"), Lit(p.video), Lit("-i"), Lit(p.audio)], 1, 14, cs[k]))
  }

  /** The expanded inputs of the mux call: the video first, then the audio. */
  lemma MuxInputsOrder(ffmpegPath: Path, p: SegmentPaths, cfg: MediaConfig)
    ensures ExpandedInputs(MuxCall(ffmpegPath, p, cfg).input)
         == Some([Lit("-i"), Lit(p.video), Lit("-i"), Lit(p.audio)])
  {
    var f := InputFlags([p.video, p.audio]);
    InputFlagsLayout([p.video, p.audio]);
    assert f[2 * 0] == Lit("-i") && f[2 * 0 + 1] == Lit(p.video);
    assert f[2 * 1] == Lit("-i") && f[2 * 1 + 1] == Lit(p.audio);
    assert f == [Lit("-i"), Lit(p.video), Lit("-i"), Lit(p.audio)];
  }

  /** Three consecutive runs of commands, each issued by its own call, make
      the three stages. */
  lemma StagesFromCalls(cs0: seq<seq<Token>>, cs1: seq<seq<Token>>, cs2: seq<seq<Token>>, cs3: seq<seq<Token>>,
                        ffmpegPath: Path, url: string, p: SegmentPaths, cfg: MediaConfig)
    requires cs0 <= cs1 <= cs2 <= cs3
    requires var n := if cfg.numRetries > 0 then cfg.numRetries else 0;
      |cs1| <= |cs0| + n && |cs2| <= |cs1| + n && |cs3| <= |cs2| + n
    requires forall k :: |cs0| <= k < |cs1| ==>
      IssuedBy(AudioCall(ffmpegPath, url, p, cfg), [Lit("-i"), Lit(url)], 3, 13, cs1[k])
    requires forall k :: |cs1| <= k < |cs2| ==>
      IssuedBy(VideoCall(ffmpegPath, url, p, cfg), [Lit("-i"), Lit(url)], 3, 13, cs2[k])
    requires forall k :: |cs2| <= k < |cs3| ==>
      IssuedBy(MuxCall(ffmpegPath, p, cfg), [Lit("-i"), Lit(p.video), Lit("-i"), Lit(p.audio)], 1, 14, cs3[k])
    ensures ThreeStages(cs3, |cs0|, |cs1|, |cs2|, ffmpegPath, url, p, cfg)
  {
    forall k | |cs0| <= k < |cs1|
      ensures cs3[k] == cs1[k]
    {
      assert cs3[k] == cs2[k];
    }
  }

  /** With a well-formed id and a resolved stream, `Acquire` goes on to
      `Fetch` on the cleaned host. */
  lemma AcquireFetches(svc: Services, cfg: MediaConfig, ffmpegPath: Path, ytid: string,
                       start: real, end: real, outputDir: Path, w: Snapshot)
    requires |ytid| == 11 && svc.streamUrl(ytid).Some?
    ensures var p := PathsOf(svc, cfg, outputDir, ytid, start, end);
      Acquire(svc, cfg, ffmpegPath, ytid, start, end, outputDir, w)
        == Fetch(svc.tool, cfg, ffmpegPath, svc.streamUrl(ytid).value, p, Downloaded(ytid, start, end),
                 start, Cleaned(w, p))
  {
  }

  /** With the h264 codec the calls run audio, video, mux in that order,
      each at least once when `num_retries > 0`, return the video and audio
      paths, and log the download last. */
  lemma FetchCallOrder(tool: Tool, cfg: MediaConfig, ffmpegPath: Path, url: string, p: SegmentPaths,
                  done: Event, start: real, w: Snapshot)
    requires cfg.videoCodec == "h264"
    ensures var a := Fetch(tool, cfg, ffmpegPath, url, p, done, start, w);
      a.result == Ok(Fetched(p.video, p.audio))
      && w.commands <= a.world.commands
      && (exists i: nat, j: nat :: ThreeStages(a.world.commands, |w.commands|, i, j, ffmpegPath, url, p, cfg)
                                   && (cfg.numRetries > 0 ==> |w.commands| < i < j < |a.world.commands|))
      && a.world.log[|a.world.log| - 1] == done
  {
    var audioCall := AudioCall(ffmpegPath, url, p, cfg);
    UnvalidatedCallReturns(audioCall, tool, AudioInputArgs(start), AudioOutputArgs(cfg), w);
    InvokeCommands(audioCall, tool, AudioInputArgs(start), AudioOutputArgs(cfg), w);
    var w1 := Invoke(audioCall, tool, AudioInputArgs(start), AudioOutputArgs(cfg), w).state.Snap();
    var videoCall := VideoCall(ffmpegPath, url, p, cfg);
    UnvalidatedCallReturns(videoCall, tool, VideoInputArgs(start), VideoOutputArgs(cfg), w1);
    InvokeCommands(videoCall, tool, VideoInputArgs(start), VideoOutputArgs(cfg), w1);
    var w2 := Invoke(videoCall, tool, VideoInputArgs(start), VideoOutputArgs(cfg), w1).state.Snap();
    var muxCall := MuxCall(ffmpegPath, p, cfg);
    UnvalidatedCallReturns(muxCall, tool, MuxInputArgs(), MuxOutputArgs(cfg), w2);
    InvokeCommands(muxCall, tool, MuxInputArgs(), MuxOutputArgs(cfg), w2);
    var w3 := Invoke(muxCall, tool, MuxInputArgs(), MuxOutputArgs(cfg), w2).state.Snap();
    MuxInputsOrder(ffmpegPath, p, cfg);
    StagesFromCalls(w.commands, w1.commands, w2.commands, w3.commands, ffmpegPath, url, p, cfg);
    assert Fetch(tool, cfg, ffmpegPath, url, p, done, start, w).world.commands == w3.commands;
    assert ThreeStages(w3.commands, |w.commands|, |w1.commands|, |w2.commands|, ffmpegPath, url, p, cfg)
        && (cfg.numRetries > 0 ==> |w.commands| < |w1.commands| < |w2.commands| < |w3.commands|);
  }

  /** A video codec other than h264 is rejected after the audio call has
      run and before any video command: every command of the segment is an
      audio command, and there is at least one when `num_retries > 0`. */
  lemma FetchCodecRejectedAfterAudio(tool: Tool, cfg: MediaConfig, ffmpegPath: Path, url: string, p: SegmentPaths,
                                done: Event, start: real, w: Snapshot)
    requires cfg.videoCodec != "h264"
    ensures var a := Fetch(tool, cfg, ffmpegPath, url, p, done, start, w);
      a.result == Err(UnsupportedCodec(cfg.videoCodec))
      && w.commands <= a.world.commands
      && (cfg.numRetries > 0 ==> |a.world.commands| > |w.commands|)
      && forall k :: |w.commands| <= k < |a.world.commands| ==>
           IssuedBy(AudioCall(ffmpegPath, url, p, cfg), [Lit("-i"), Lit(url)], 3, 13, a.world.commands[k])
  {
    UnvalidatedCallReturns(AudioCall(ffmpegPath, url, p, cfg), tool, AudioInputArgs(start), AudioOutputArgs(cfg), w);
    InvokeCommands(AudioCall(ffmpegPath, url, p, cfg), tool, AudioInputArgs(start), AudioOutputArgs(cfg), w);
  }

  /** Exhaustion is swallowed: if every command fails with an HTTP error,
      each of the three calls logs its exhaustion error after `num_retries`
      attempts and the segment is still reported as fetched. */
  lemma FetchExhaustedLooksFetched(tool: Tool, cfg: MediaConfig, ffmpegPath: Path, url: string, p: SegmentPaths,
                                     done: Event, start: real, w: Snapshot)
    requires cfg.videoCodec == "h264"
    requires forall c :: |w.commands| <= c ==> FailsWithHttpError(tool, c)
    ensures var a := Fetch(tool, cfg, ffmpegPath, url, p, done, start, w);
      var n := if cfg.numRetries > 0 then cfg.numRetries else 0;
      a.result == Ok(Fetched(p.video, p.audio))
      && |a.world.commands| == |w.commands| + 3 * n
      && |a.world.log| == |w.log| + 4
      && a.world.log[|w.log|].RetriesExhausted?
      && a.world.log[|w.log| + 1].RetriesExhausted?
      && a.world.log[|w.log| + 2].RetriesExhausted?
      && a.world.log[|w.log| + 3] == done
  {
    var audioCall := AudioCall(ffmpegPath, url, p, cfg);
    InvokeHttpFailuresExhaust(audioCall, tool, AudioInputArgs(start), AudioOutputArgs(cfg), w);
    var w1 := Invoke(audioCall, tool, AudioInputArgs(start), AudioOutputArgs(cfg), w).state.Snap();
    var videoCall := VideoCall(ffmpegPath, url, p, cfg);
    InvokeHttpFailuresExhaust(videoCall, tool, VideoInputArgs(start), VideoOutputArgs(cfg), w1);
    var w2 := Invoke(videoCall, tool, VideoInputArgs(start), VideoOutputArgs(cfg), w1).state.Snap();
    var muxCall := MuxCall(ffmpegPath, p, cfg);
    InvokeHttpFailuresExhaust(muxCall, tool, MuxInputArgs(), MuxOutputArgs(cfg), w2);
  }

  // ---------------------------------------------------------------------
  // The whole protocol

  /** With an 11-character id, a resolved stream and the h264 codec,
      `download_yt_video` runs the audio, the video and the mux commands in
      that order, each call at least once when `num_retries > 0`, returns
      the video and audio paths, and logs the download last. */
  lemma CallOrder(svc: Services, cfg: MediaConfig, ffmpegPath: Path, ytid: string,
                  start: real, end: real, outputDir: Path, w: Snapshot)
    requires |ytid| == 11 && svc.streamUrl(ytid).Some? && cfg.videoCodec == "h264"
    ensures var a := Acquire(svc, cfg, ffmpegPath, ytid, start, end, outputDir, w);
      var p := PathsOf(svc, cfg, outputDir, ytid, start, end);
      var url := svc.streamUrl(ytid).value;
      a.result == Ok(Fetched(p.video, p.audio))
      && w.commands <= a.world.commands
      && (exists i: nat, j: nat :: ThreeStages(a.world.commands, |w.commands|, i, j, ffmpegPath, url, p, cfg)
                                   && (cfg.numRetries > 0 ==> |w.commands| < i < j < |a.world.commands|))
      && a.world.log[|a.world.log| - 1] == Downloaded(ytid, start, end)
  {
    var p := PathsOf(svc, cfg, outputDir, ytid, start, end);
    AcquireFetches(svc, cfg, ffmpegPath, ytid, start, end, outputDir, w);
    FetchCallOrder(svc.tool, cfg, ffmpegPath, svc.streamUrl(ytid).value, p, Downloaded(ytid, start, end),
                   start, Cleaned(w, p));
  }

  /** A video codec other than h264 raises NotImplementedError after the
      audio call has run and before any video command: every command of the
      segment is an audio command, and there is at least one when
      `num_retries > 0`. */
  lemma CodecRejectedAfterAudio(svc: Services, cfg: MediaConfig, ffmpegPath: Path, ytid: string,
                                start: real, end: real, outputDir: Path, w: Snapshot)
    requires |ytid| == 11 && svc.streamUrl(ytid).Some? && cfg.videoCodec != "h264"
    ensures var a := Acquire(svc, cfg, ffmpegPath, ytid, start, end, outputDir, w);
      var p := PathsOf(svc, cfg, outputDir, ytid, start, end);
      var url := svc.streamUrl(ytid).value;
      a.result == Err(UnsupportedCodec(cfg.videoCodec))
      && w.commands <= a.world.commands
      && (cfg.numRetries > 0 ==> |a.world.commands| > |w.commands|)
      && forall k :: |w.commands| <= k < |a.world.commands| ==>
           IssuedBy(AudioCall(ffmpegPath, url, p, cfg), [Lit("-i"), Lit(url)], 3, 13, a.world.commands[k])
  {
    var p := PathsOf(svc, cfg, outputDir, ytid, start, end);
    AcquireFetches(svc, cfg, ffmpegPath, ytid, start, end, outputDir, w);
    FetchCodecRejectedAfterAudio(svc.tool, cfg, ffmpegPath, svc.streamUrl(ytid).value, p,
                                 Downloaded(ytid, start, end), start, Cleaned(w, p));
  }

  /** Exhaustion is swallowed: if every command fails with an HTTP error,
      each of the three calls logs its exhaustion error after `num_retries`
      attempts, and the segment is still reported as fetched and logged as
      downloaded. */
  lemma ExhaustedSegmentLooksFetched(svc: Services, cfg: MediaConfig, ffmpegPath: Path, ytid: string,
                                     start: real, end: real, outputDir: Path, w: Snapshot)
    requires |ytid| == 11 && svc.streamUrl(ytid).Some? && cfg.videoCodec == "h264"
    requires forall c :: |w.commands| <= c ==> FailsWithHttpError(svc.tool, c)
    ensures var a := Acquire(svc, cfg, ffmpegPath, ytid, start, end, outputDir, w);
      var p := PathsOf(svc, cfg, outputDir, ytid, start, end);
      var n := if cfg.numRetries > 0 then cfg.numRetries else 0;
      a.result == Ok(Fetched(p.video, p.audio))
      && |a.world.commands| == |w.commands| + 3 * n
      && |a.world.log| == |w.log| + 4
      && a.world.log[|w.log|].RetriesExhausted?
      && a.world.log[|w.log| + 1].RetriesExhausted?
      && a.world.log[|w.log| + 2].RetriesExhausted?
      && a.world.log[|w.log| + 3] == Downloaded(ytid, start, end)
  {
    var p := PathsOf(svc, cfg, outputDir, ytid, start, end);
    AcquireFetches(svc, cfg, ffmpegPath, ytid, start, end, outputDir, w);
    FetchExhaustedLooksFetched(svc.tool, cfg, ffmpegPath, svc.streamUrl(ytid).value, p,
                               Downloaded(ytid, start, end), start, Cleaned(w, p));
  }

  // ---------------------------------------------------------------------
  // The argument lists

  /** `k` is the first position of `t` in `args`. */
  lemma FirstAt(args: seq<Token>, t: Token, k: nat)
    requires k < |args| && args[k] == t
    requires forall j :: 0 <= j < k ==> args[j] != t
    ensures IndexOf(args, t) == Some(k)
  {
    assert t in args;
  }

  /** With a number right after its first `-t`, the duration correction
      rewrites the output list when the input list has no `-t`. */
  lemma OutputDurationRewritten(inArgs: seq<Token>, outArgs: seq<Token>, diff: real)
    requires Lit("-t") !in inArgs
    requires 2 <= |outArgs| && outArgs[0] == Lit("-t") && outArgs[1].Num?
    ensures DurationValue(inArgs, outArgs) == Some(outArgs[1].value)
    ensures AdjustDuration(inArgs, outArgs, diff) == Ok((inArgs, outArgs[1 := Num(outArgs[1].value + diff)]))
  {
    FirstAt(outArgs, Lit("-t"), 0);
  }

  /** The audio call seeks to the segment start before its input, and asks
      for `SegmentSeconds` of `AudioChannels`-channel audio. Its input list
      has no `-t`, so a duration correction rewrites the value after the
      output list's `-t`. */
  lemma AudioArgsLayout(start: real, cfg: MediaConfig, diff: real)
    ensures var inArgs, outArgs := AudioInputArgs(start), AudioOutputArgs(cfg);
      IndexOf(inArgs, Lit("-ss")) == Some(1) && inArgs[2] == Num(start)
      && IndexOf(outArgs, Lit("-ac")) == Some(5) && outArgs[6] == Num(AudioChannels)
      && DurationValue(inArgs, outArgs) == Some(SegmentSeconds)
      && AdjustDuration(inArgs, outArgs, diff) == Ok((inArgs, outArgs[1 := Num(SegmentSeconds + diff)]))
  {
    var inArgs, outArgs := AudioInputArgs(start), AudioOutputArgs(cfg);
    FirstAt(inArgs, Lit("-ss"), 1);
    FirstAt(outArgs, Lit("-ac"), 5);
    OutputDurationRewritten(inArgs, outArgs, diff);
  }

  /** The video call seeks to the segment start before its input and asks
      for `SegmentSeconds` of video; a duration correction rewrites the
      value after the output list's `-t`. */
  lemma VideoArgsLayout(start: real, cfg: MediaConfig, diff: real)
    ensures var inArgs, outArgs := VideoInputArgs(start), VideoOutputArgs(cfg);
      IndexOf(inArgs, Lit("-ss")) == Some(1) && inArgs[2] == Num(start)
      && DurationValue(inArgs, outArgs) == Some(SegmentSeconds)
      && AdjustDuration(inArgs, outArgs, diff) == Ok((inArgs, outArgs[1 := Num(SegmentSeconds + diff)]))
  {
    var inArgs, outArgs := VideoInputArgs(start), VideoOutputArgs(cfg);
    FirstAt(inArgs, Lit("-ss"), 1);
    OutputDurationRewritten(inArgs, outArgs, diff);
  }

  /** A list in which every `-t` is followed by text has no duration value:
      the rewrite on it raises ValueError. */
  lemma TextAfterEveryT(args: seq<Token>, diff: real)
    requires forall k :: 0 <= k < |args| && args[k] == Lit("-t") ==> k + 1 < |args| && args[k + 1].Lit?
    ensures DurationSlot(args) == None && AdjustList(args, diff) == Err(DurationValueError)
  {
    if IndexOf(args, Lit("-t")).Some? {
      var k := IndexOf(args, Lit("-t")).value;
      assert args[k] == Lit("-t");
    }
  }

  /** In the mux output list a `-t` can only be one of the two configured
      texts, and the token after each of them is text. */
  lemma MuxOutputTextAfterT(cfg: MediaConfig)
    ensures var args := MuxOutputArgs(cfg);
      forall k :: 0 <= k < |args| && args[k] == Lit("-t") ==> k + 1 < |args| && args[k + 1].Lit?
  {
    var args := MuxOutputArgs(cfg);
    forall k | 0 <= k < |args| && args[k] == Lit("-t")
      ensures k + 1 < |args| && args[k + 1].Lit?
    {
      assert k == 1 || k == 5 by {
        assert k == 0 || k == 1 || k == 2 || k == 3 || k == 4 || k == 5 || k == 6
            || k == 7 || k == 8 || k == 9 || k == 10 || k == 11 || k == 12 || k == 13;
      }
    }
  }

  /** The mux call asks for `AudioChannels` channels and carries no duration
      value: whatever the configuration, a duration correction on its lists
      raises ValueError. */
  lemma MuxArgsHaveNoDuration(cfg: MediaConfig, diff: real)
    ensures var inArgs, outArgs := MuxInputArgs(), MuxOutputArgs(cfg);
      outArgs[10] == Lit("-ac") && outArgs[11] == Num(AudioChannels)
      && DurationValue(inArgs, outArgs) == None
      && AdjustDuration(inArgs, outArgs, diff) == Err(DurationValueError)
  {
    var inArgs, outArgs := MuxInputArgs(), MuxOutputArgs(cfg);
    assert Lit("-t") !in inArgs;
    MuxOutputTextAfterT(cfg);
    TextAfterEveryT(outArgs, diff);
  }
}
