/** What the downloader sees of the machine it runs on: the argument tokens it
    hands to ffmpeg, the events it logs, the exceptions it raises, the
    filesystem it deletes from, and the external tool as an oracle. */
module Host {

  type Path = string

  datatype Option<T> = None | Some(value: T)

  datatype Result<T, E> = Ok(value: T) | Err(error: E)

  /** One element of an ffmpeg argument list. A token whose text Python's
      `float()` reads as a finite number is kept as that number; every other
      token is kept as text. The texts `float()` reads as nan or as an
      infinity have no real value and are not modelled. */
  datatype Token = Lit(text: string) | Num(value: real)

  /** What `run_command` reports: a zero exit, or a `SubprocessError` carrying
      the captured stderr. `partial` says whether the failed run left an
      output file behind. */
  datatype ProcessResult = Exited | Failed(stderr: string, partial: bool)

  /** What a validation callback reports about an output that ffmpeg produced:
      nothing, `FfmpegIncorrectDurationError`, or `FfmpegValidationError`. */
  datatype Validation = Passed | IncorrectDuration(target: real, actual: real) | Invalid

  /** Everything one ffmpeg command can end with. */
  datatype Outcome = Outcome(process: ProcessResult, validation: Validation)

  /** The external tool. `outcome(k)` is how the k-th command the host ever
      runs ends; `isHttpError` is the `HTTP_ERR_PATTERN` match on stripped
      stderr, whose pattern is not part of this model. */
  datatype Tool = Tool(outcome: nat -> Outcome, isHttpError: string -> bool)

  /** The error the retry loop remembers as `last_err`. */
  datatype Failure =
    | ProcessFailure(stderr: string)
    | DurationFailure(target: real, actual: real)
    | ValidationFailure

  /** Log records the core writes. */
  datatype Event =
    | OutputExists(output: Path)                            // info: "already exists"
    | ProcessRetry(stderr: string)                          // error: "... Retrying..."
    | DurationRetry(target: real, actual: real)             // warning: "...; Retrying..."
    | ValidationRetry(output: Path)                         // info: "did not validate"
    | RetriesExhausted(numRetries: int, lastErr: Option<Failure>)  // error: maximum retries
    | Downloaded(ytid: string, start: real, end: real)      // info: "Downloaded video"
    | AlreadyDownloaded(ytid: string, start: real, end: real) // info: "Already downloaded ... Skipping."

  /** Exceptions that escape the core. */
  datatype Exception =
    | InputTypeError                 // ValueError: input is neither a str nor iterable
    | DurationValueError             // ValueError: no usable "-t" in either argument list
    | DurationIndexError             // IndexError: a "-t" with nothing after it
    | UnsupportedCodec(codec: string) // NotImplementedError: video codec other than h264
    | ResolutionError(ytid: string)   // the stream URL lookup failed

  /** The part of the host the core changes. */
  datatype Snapshot = Snapshot(files: set<Path>, log: seq<Event>, commands: seq<seq<Token>>)

  /** The files present after a command that wrote to `output` ended with `p`:
      a zero exit leaves the output, a failure may leave part of one. */
  function Produce(files: set<Path>, p: ProcessResult, output: Path): (r: set<Path>)
    ensures files <= r <= files + {output}
    ensures output in r <==> output in files || p.Exited? || p.partial
  {
    if p.Exited? || p.partial then files + {output} else files
  }

  /** The machine: existing paths, the log, and every command run so far. */
  class World {
    var files: set<Path>
    var log: seq<Event>
    var commands: seq<seq<Token>>

    constructor (existing: set<Path>)
      ensures files == existing && log == [] && commands == []
    {
      files := existing;
      log := [];
      commands := [];
    }

    function Snap(): Snapshot
      reads this
    {
      Snapshot(files, log, commands)
    }

    /** `run_command(argv)` for a command that writes `output`. */
    method RunCommand(tool: Tool, argv: seq<Token>, output: Path) returns (o: Outcome)
      modifies this
      ensures o == tool.outcome(|old(commands)|)
      ensures commands == old(commands) + [argv]
      ensures files == Produce(old(files), o.process, output)
      ensures log == old(log)
    {
      o := tool.outcome(|commands|);
      commands := commands + [argv];
      files := Produce(files, o.process, output);
    }

    /** `if os.path.exists(p): os.remove(p)`. */
    method RemoveIfExists(p: Path)
      modifies this
      ensures files == old(files) - {p}
      ensures log == old(log) && commands == old(commands)
    {
      files := files - {p};
    }

    method Log(e: Event)
      modifies this
      ensures log == old(log) + [e]
      ensures files == old(files) && commands == old(commands)
    {
      log := log + [e];
    }
  }
}
