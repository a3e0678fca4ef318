# yt-vid-downloader core, modelled in Dafny

This project models the download core of `download.py` from yt-vid-downloader.
That core fetches 10-second segments of YouTube videos with ffmpeg:

- **The `ffmpeg` wrapper** (`module Invoker`, file `invoker.dfy`) expands
  the input into `-i` pairs and builds the argument vector. It runs the tool
  up to `num_retries` times. It sorts each failure into a disposition: the
  output already exists, an HTTP error, another tool error, a duration
  mismatch, or a failed validation. The disposition decides whether the output
  is deleted, whether the value after `-t` is rewritten, and whether the loop
  stops. When the loop runs out of attempts, the `for … else` logs the
  exhaustion error. The wrapper is an imperative method over `array<Token>`
  (the caller's lists, rewritten in place), on a `World` object. It is proved
  equal to a specification function `Invoke` / `RetryLoop`.
- **`download_yt_video`** (`module Segment`, `segment.dfy`) deletes the
  three output paths, then rejects an id whose length is not 11. It resolves
  the stream URL and runs three wrapper calls: audio, video, then the mux of
  the two. A video codec other than h264 is rejected between the audio call
  and the video call. The method `DownloadSegment` is proved equal to the
  specification function `Acquire`.
- **`download_subset_videos`** (`module Scheduler`, `scheduler.dfy`) turns
  each data row into a job. The job starts at `h*3600 + m*60 + s` and ends 10
  seconds later. A row whose three outputs all exist is skipped with a log
  record. Every other row is submitted, in row order. The method `SubmitJobs`
  is proved equal to the specification function `Schedule`.

`module Host` (`host.dfy`) holds what the core sees of the machine:

- argument tokens;
- log events;
- the exceptions that escape;
- the set of existing files;
- the external tool as an oracle.

`Tool.outcome(k)` is how the k-th command the host ever runs ends. Its stderr
is checked against `HTTP_ERR_PATTERN` by an uninterpreted predicate
`isHttpError`.

A token whose text Python's `float()` reads as a finite number is a `Num`
carrying that value. Any other token is a `Lit`. `module Text` holds `rstrip`, `endswith` and
POSIX `os.path.join`.

The properties are in `retry_properties.dfy`, `segment_properties.dfy` and
`scheduler_properties.dfy`.

In these places the code behaves in ways that are easy to misread; the model
follows the code:

- `download_yt_video` deletes the three outputs *before* the id-length
  check, so a malformed id still deletes files (`EarlyExitAfterCleanup`).
- A stderr that matches the HTTP pattern is retried with `continue`. The
  output is not deleted and nothing is logged (`HttpFailureKeepsOutput`).
  Only the other tool errors log and delete (`ToolFailureDeletesOutput`),
  and they do so on the last attempt too.
- A duration mismatch or a validation failure deletes the output only when
  another attempt follows (`LateFailureKeepsLastOutput`).
- A non-h264 codec is rejected *after* the audio call has run, not before
  any call (`CodecRejectedAfterAudio`).
- An exhausted call does not end the segment. The next call still runs, and
  a segment whose every command failed returns the same result as a
  successful one (`ExhaustedSegmentLooksFetched`).
- The `-t` lookup falls back from `input_args` to `output_args` only on a
  ValueError: no `-t`, or a value `float()` rejects. A `-t` at the end of
  `input_args` raises IndexError, and that error escapes
  (`AdjustDurationFailsIffNoValue`).
- A stderr ending in the "already exists" marker still becomes `last_err`.

## Model

| member | source | states |
|---|---|---|
| Text.RStrip | download.py:221 | the result is a prefix of the input with no trailing whitespace, and everything removed is whitespace |
| Text.RStripIgnoresTrailingSpace | download.py:221 | appending whitespace to a string does not change its `rstrip` |
| Text.EndsWithIffSplit | download.py:222 | `Text.EndsWith(s, suffix)`, the model of `s.endswith(suffix)`, holds iff `s` is some string followed by `suffix` |
| Text.JoinShape | download.py:280-285 | `Text.Join(a, b)`, the model of `os.path.join(a, b)`, ends with `b`; an absolute `b` is the whole result; otherwise `a` precedes it, with a `/` unless `a` is empty or already ends in one |
| Host.Produce | download.py:212 | after a command, the output exists iff it existed before, the command exited 0, or it failed leaving a partial file; no other file appears |
| Host.World.RunCommand | download.py:212 | `run_command` appends exactly the given argv to the command history, returns the oracle's outcome for that command number, and changes the files only as `Produce` says |
| Host.World.RemoveIfExists | download.py:231-232 | `if os.path.exists(p): os.remove(p)` removes `p` and nothing else |
| Host.World.Log | download.py:223 | a log call appends exactly one record |
| Invoker.ExpandedInputs | download.py:191-200 | a string input becomes `['-i', path]`, an iterable becomes `-i` pairs in order, anything else raises ValueError |
| Invoker.ExpandInputs | download.py:191-200 | the append loop builds exactly the expanded inputs |
| Invoker.Classify | download.py:212-260 | the three failure dispositions occur iff the process failed; duration and validation dispositions only with a validation callback |
| Invoker.IndexOf | download.py:242 | `list.index` returns the first occurrence, and is None (ValueError) iff the token is absent |
| Invoker.AdjustList | download.py:242-244 | the rewrite on one list succeeds iff a number follows the first `-t`, it then adds `diff` to exactly that number, and it raises IndexError iff `-t` is the last token |
| Invoker.AdjustListInPlace | download.py:242-244 | the in-place rewrite of one array leaves what `AdjustList` computes, or leaves the array untouched and returns the exception |
| Invoker.AdjustDurationInPlace | download.py:240-248 | the nested `try` rewrites `input_args`, falls back to `output_args` on ValueError, and leaves both arrays untouched when an exception escapes |
| Invoker.Attempt | download.py:209-260 | one pass of the loop body leaves the arrays, the host and `last_err` exactly as the specification step `AttemptStep` says |
| Invoker.Handle | download.py:214-260 | the validation outcome and the `except` clauses, after the command ran, leave the arrays, the host and `last_err` exactly as the specification `Settle` says for the disposition |
| Invoker.Ffmpeg | download.py:187-263 | the wrapper's status, its final argument arrays and the host equal those of the specification `Invoke` of the old state |
| RetryProperties.InputFlagsLayout | download.py:194-197 | the expanded inputs have length `2n`, and pair `k` is `-i` followed by path `k` |
| RetryProperties.ArgvLayout | download.py:210-211 | `Invoker.Argv`: the argument vector is the tool, `input_args`, the inputs, `output_args`, the output path, `-loglevel` and the level, in that order |
| RetryProperties.ClassifyIgnoresTrailingWhitespace | download.py:221-226 | trailing whitespace on stderr never changes the disposition |
| RetryProperties.MarkerBeatsHttpPattern | download.py:222-228 | a stderr ending in "already exists. Exiting." is classified as an existing output, whatever the HTTP pattern says |
| RetryProperties.AttemptRunsOneCommand | download.py:209-260 | every attempt runs exactly one command built from the current lists, only a duration mismatch raises or rewrites, the lists keep their lengths, and the log only grows, never with an exhaustion record |
| RetryProperties.StopDeletesNothing | download.py:218 | a success or an existing output stops the loop at that attempt and deletes no file |
| RetryProperties.HttpFailureKeepsOutput | download.py:226-228 | an HTTP failure raises nothing, deletes no file and logs nothing |
| RetryProperties.ToolFailureDeletesOutput | download.py:230-232 | any other tool failure logs the retry and deletes the output, on every attempt |
| RetryProperties.LateFailureKeepsLastOutput | download.py:234-256 | after a duration mismatch or a validation failure the output is present iff this was the last attempt; no other file changes |
| RetryProperties.DurationMismatchRewrites | download.py:240-251 | a duration mismatch installs the rewritten lists and logs a warning, or lets the rewrite's exception escape with the lists unchanged and nothing logged |
| RetryProperties.RetryCommands | download.py:208-212 | `Invoker.RetryLoop` from any attempt: the loop runs at most `num_retries` commands, at least one when an attempt remains, each one issued by this call; the lists keep their lengths |
| RetryProperties.ExhaustionIffNoStop | download.py:208-263 | in `Invoker.RetryLoop`, the exhaustion error is logged iff no exception escaped and no attempt stopped the loop |
| RetryProperties.ExhaustionComesLast | download.py:208-263 | in `Invoker.RetryLoop`, when the exhaustion error is logged, it is the last record, after exactly `num_retries` commands |
| RetryProperties.HttpFailuresExhaust | download.py:208-263 | when every attempt fails with an HTTP error: exactly `num_retries` commands, no deletion, no exception, and the exhaustion record is the only log entry |
| RetryProperties.InvokeEdgeCases | download.py:191-263 | a non-iterable input raises ValueError before any command; `num_retries <= 0` runs nothing and logs exhaustion with no last error |
| RetryProperties.InvokeCommands | download.py:207-212 | a whole call runs between 1 (when `num_retries > 0`) and `num_retries` commands, each with this call's tool, inputs and output |
| RetryProperties.UnvalidatedLoopNeverRaises | download.py:214-218 | without a validation callback the loop never raises and never rewrites the lists |
| RetryProperties.UnvalidatedCallReturns | download.py:187-218 | a call without a validation callback on a string or iterable input returns normally |
| RetryProperties.InvokeHttpFailuresExhaust | download.py:187-263 | a whole call whose every command fails with an HTTP error runs `num_retries` commands, keeps every file and logs only the exhaustion error |
| RetryProperties.IndexOfIgnoresNumbers | download.py:242-247 | overwriting a number does not move the first `-t` |
| RetryProperties.AdjustListRewritesSlot | download.py:242-244 | after a rewrite the first `-t` is where it was, and only the value after it changed |
| RetryProperties.AdjustDurationFailsIffNoValue | download.py:240-248 | `Invoker.AdjustDuration`: the rewrite fails iff no duration value is reachable (an IndexError on `input_args` blocks the fallback); with no `-t` anywhere, ValueError escapes |
| RetryProperties.AdjustDurationRewritesOneToken | download.py:240-248 | `Invoker.AdjustDuration`: a successful rewrite adds `diff` to the reachable duration value, in `input_args` if it has one, else in `output_args`, and changes no other token |
| RetryProperties.AdjustListCompounds | download.py:242-244 | two rewrites of one list by `d1` then `d2` equal one rewrite by `d1 + d2` |
| RetryProperties.AdjustDurationCompounds | download.py:240-248 | successive duration corrections compound on the rewritten value: `d1` then `d2` equals `d1 + d2` |
| Segment.Call | download.py:329-331 | one wrapper call with fresh argument lists leaves the host as `Invoke` says |
| Segment.DownloadSegment | download.py:266-367 | `download_yt_video` on the host returns and leaves exactly what the specification `Acquire` computes from the old host |
| SegmentProperties.OutputPathsNaming | download.py:279-285 | each of the three paths `Segment.OutputPaths` builds ends with `<media name>.<format>` of its stream |
| SegmentProperties.EarlyExitAfterCleanup | download.py:288-302 | a malformed id returns `(None, None)` and an unresolved URL raises; either way no command runs, nothing is logged, and the three outputs are already deleted |
| SegmentProperties.MuxInputsOrder | download.py:361 | the mux reads the video file first, then the audio file |
| SegmentProperties.CallOrder | download.py:266-367 | for `Segment.Acquire` with an 11-character id, a resolved URL and h264: the new commands are those of `AudioCall`, then `VideoCall`, then `MuxCall`, each call running between 1 (when `num_retries > 0`) and `num_retries` commands; the result is the video and audio paths; the download record is logged last |
| SegmentProperties.CodecRejectedAfterAudio | download.py:318-336 | for `Segment.Acquire`, a non-h264 codec raises after the audio call ran, with at least one audio command when `num_retries > 0`, and no video or mux command |
| SegmentProperties.ExhaustedSegmentLooksFetched | download.py:318-367 | for `Segment.Acquire`, if every command fails with an HTTP error, all three calls run `num_retries` commands and log their exhaustion, yet the segment is reported as fetched and logged as downloaded |
| SegmentProperties.AudioArgsLayout | download.py:319-326 | the audio lists `AudioInputArgs`/`AudioOutputArgs` put the segment start after `-ss` and the 2 channels of `audio_info` after `-ac`; their only duration value is the 10 after the output `-t`, and a correction by `diff` rewrites exactly that token |
| SegmentProperties.VideoArgsLayout | download.py:337-344 | the video lists `VideoInputArgs`/`VideoOutputArgs` put the segment start after `-ss`; their only duration value is the 10 after the output `-t`, and a correction by `diff` rewrites exactly that token |
| SegmentProperties.MuxArgsHaveNoDuration | download.py:352-359 | the mux lists `MuxInputArgs`/`MuxOutputArgs` carry the 2 channels after `-ac` and, whatever the configuration, no duration value: a correction on them raises ValueError |
| Scheduler.SubmitJobs | download.py:402-426 | the loop returns exactly the jobs of `Schedule`, appends exactly its skip records to the log, and touches no file or command |
| ScheduleProperties.ScheduleSplit | download.py:402-426 | `Scheduler.Schedule`: the plan of `a + b` is the plan of `a` followed by the plan of `b`: each row is decided on its own, and row order is kept |
| ScheduleProperties.EveryRowAccounted | download.py:417-426 | every row is either submitted or logged as skipped |
| ScheduleProperties.SubmittedIffMissing | download.py:417-426 | a job is submitted iff it is the job of a row whose three outputs do not all exist |
| ScheduleProperties.SkipLoggedIffPresent | download.py:417-421 | a skip record is logged iff it names the segment of a row whose three outputs all exist |
| ScheduleProperties.NothingPresentSubmitsAll | download.py:417-426 | with no row complete, every row becomes its job, in order, and nothing is logged |
| ScheduleProperties.AllPresentSubmitsNone | download.py:417-421 | with every row complete, no job is submitted and every row is logged as skipped, in order |
| ScheduleProperties.ClockOffsetInjective | download.py:405-407 | with minutes and seconds below 60, two rows have the same `Scheduler.StartOffset` iff they have the same hours, minutes and seconds |
| ScheduleProperties.JobOfInjective | download.py:405-407 | with minutes and seconds below 60, two rows get the same `Scheduler.JobOf` iff they are the same row; every job ends `SegmentSeconds` after it starts |
| ScheduleProperties.SkipTestMatchesWorker | download.py:410-418 | the paths `Scheduler.JobPaths` tests are those the worker uses: a successful worker returns their video and audio paths, and a malformed id leaves none of the three, so the row is not skipped next time |

## Left out

- Multiprocessing (`mp.Pool`, `apply_async`, `close`/`join`) is not modelled. `SubmitJobs` returns the submitted jobs in order instead. The worker `segment_mp_worker`, which logs and swallows every exception, is not modelled either.
- Command-line parsing, logging setup, the `atexit` hook and directory creation are left out. They are configuration and I/O.
- CSV reading and the `int()` parsing of the fields are left out. `SubmitJobs` takes the data rows already parsed, header removed. As written, `subset_data[1:]` on a `csv.reader` object raises TypeError before any row is read, because a reader cannot be sliced. The model follows the evident intent: skip the header row.
- The `csv.Error` and `KeyboardInterrupt` handlers of the scheduler are left out. They are process control.
- `Video.getFormats` and the indexing of its result are left out. They are a network lookup. `Services.streamUrl` is a parameter, and its failure becomes `ResolutionError`.
- `get_media_filename` is the parameter `Services.mediaName`. `HTTP_ERR_PATTERN` is the uninterpreted `Tool.isHttpError`. `run_command` and the validation callback are the oracle `Tool.outcome`.
- Conversions between numbers and their text (`str(float)`, `str(ts_start)`, `float(token)`) are left out. A numeric token carries its value as a real, so the `-t` rewrite adds exactly, with no float rounding.
- `print(ytid)` for a malformed id is left out. It is console output.
- The unused `ffprobe_path`, `video_mode` and `video_info` values are left out. They change nothing that the core does. Of `audio_info` only `channels` is read; it is the constant 2 (`Segment.AudioChannels`) that both `-ac` options carry.
- Tokens that `float()` reads as nan or as an infinity ("nan", "inf", "infinity" in any case and sign) are not modelled: a `Num` carries a real, and those texts have none.
- Invoker.ExpandedInputs: assumes a Python up to 3.9, where `collections.Iterable` exists. From Python 3.10 on, line 193 raises AttributeError for every input that is not a `str`. That includes the mux call's list of two paths, and the worker swallows the error.
- Invoker.Ffmpeg: requires the two argument arrays to be distinct. The same list passed as both `input_args` and `output_args` is not modelled.
- Invoker.Ffmpeg: an absent (`None`) argument list, which the wrapper replaces with `[]`, is modelled as an empty sequence.
- Scheduler.SubmitJobs: it uses the configured formats for the skip test. The scheduler's own `.get` fallbacks (`mp4`, `wav`) differ from the worker's defaults (`mp4`, `flac`). This matters only for a configuration without those keys, which the command line never produces.
- Text.RStrip: treats only ASCII whitespace and the separators 28-31 as spaces. The rest of Unicode whitespace is not modelled.
- Exceptions that a validation callback raises other than the two duration and validation errors are left out. The downloader never passes a callback.
