/** The `ffmpeg` wrapper of download.py: expands the inputs into `-i` pairs,
    builds the argument vector, and runs the tool up to `num_retries` times,
    sorting every failure into a disposition that decides whether the output
    is deleted, whether the `-t` duration is rewritten, and whether the loop
    goes on. */
module Invoker {
  import opened Host
  import opened Text

  /** The stderr tail that ffmpeg prints when `-n` finds the output present. */
  const AlreadyExistsMarker := "already exists. Exiting."

  /** The `input_path` argument: one string, an iterable of strings, or
      anything else (which makes the wrapper raise ValueError). */
  datatype InputPath = Single(path: Path) | Several(paths: seq<Path>) | NotIterable

  /** The arguments of one `ffmpeg(...)` call other than the two mutable
      argument lists. `validated` says whether a validation callback is given. */
  datatype Invocation = Invocation(
    ffmpegPath: Path,
    input: InputPath,
    outputPath: Path,
    logLevel: string,
    numRetries: int,
    validated: bool)

  /** The wrapper's local state across attempts: the two argument lists (the
      caller's, rewritten in place), the host, and `last_err`. */
  datatype State = State(
    inArgs: seq<Token>,
    outArgs: seq<Token>,
    files: set<Path>,
    log: seq<Event>,
    commands: seq<seq<Token>>,
    lastErr: Option<Failure>)
  {
    function Snap(): Snapshot {
      Snapshot(files, log, commands)
    }
  }

  /** How the wrapper call ends: it returns (always None), or an exception
      escapes. */
  datatype Status = Returned | Raised(e: Exception)

  datatype Run = Run(state: State, status: Status)

  // ---------------------------------------------------------------------
  // Input expansion and the argument vector

  /** `['-i', p1, ..., '-i', pn]`. */
  function InputFlags(paths: seq<Path>): seq<Token>
  {
    if paths == [] then []
    else InputFlags(paths[..|paths| - 1]) + [Lit("-i"), Lit(paths[|paths| - 1])]
  }

  /** The `inputs` list, or None where the wrapper raises ValueError. */
  function ExpandedInputs(input: InputPath): (r: Option<seq<Token>>)
    ensures r.None? <==> input.NotIterable?
    ensures input.Single? ==> r == Some([Lit("-i"), Lit(input.path)])
    ensures input.Single? ==> r == Some(InputFlags([input.path]))
    ensures input.Several? ==> r == Some(InputFlags(input.paths))
  {
    match input
    case Single(p) =>
      assert [p][..|[p]| - 1] == [];
      assert InputFlags([p]) == [Lit("-i"), Lit(p)];
      Some([Lit("-i"), Lit(p)])
    case Several(ps) => Some(InputFlags(ps))
    case NotIterable => None
  }

  /** Builds `inputs` the way the wrapper does, one `append` at a time. */
  method ExpandInputs(input: InputPath) returns (inputs: Option<seq<Token>>)
    ensures inputs == ExpandedInputs(input)
  {
    match input {
      case Single(p) =>
        inputs := Some([Lit("-i"), Lit(p)]);
      case Several(ps) =>
        var acc: seq<Token> := [];
        for i := 0 to |ps|
          invariant acc == InputFlags(ps[..i])
        {
          acc := acc + [Lit("-i")];
          acc := acc + [Lit(ps[i])];
          assert ps[..i + 1][..i] == ps[..i];
        }
        assert ps[..|ps|] == ps;
        inputs := Some(acc);
      case NotIterable =>
        inputs := None;
    }
  }

  /** `[ffmpeg_path] + input_args + inputs + output_args + [output_path, '-loglevel', log_level]`. */
  function Argv(inv: Invocation, inArgs: seq<Token>, inputs: seq<Token>, outArgs: seq<Token>): seq<Token>
  {
    [Lit(inv.ffmpegPath)] + inArgs + inputs + outArgs
      + [Lit(inv.outputPath), Lit("-loglevel"), Lit(inv.logLevel)]
  }

  /** `c` is a command of `inv` with input list `inputs`, given argument
      lists of lengths `nIn` and `nOut`. */
  predicate IssuedBy(inv: Invocation, inputs: seq<Token>, nIn: nat, nOut: nat, c: seq<Token>)
  {
    |c| == nIn + |inputs| + nOut + 4
    && c[0] == Lit(inv.ffmpegPath)
    && c[1 + nIn..1 + nIn + |inputs|] == inputs
    && c[|c| - 3..] == [Lit(inv.outputPath), Lit("-loglevel"), Lit(inv.logLevel)]
  }

  // ---------------------------------------------------------------------
  // Classification of one attempt

  /** What the wrapper makes of one attempt. */
  datatype Disposition =
    | Succeeded                                  // ran, and validated if asked
    | AlreadyExists                              // stderr ends with the marker
    | HttpError                                  // stderr matches the HTTP pattern
    | ToolError                                  // any other subprocess failure
    | DurationMismatch(target: real, actual: real)  // FfmpegIncorrectDurationError
    | ValidationError                            // FfmpegValidationError

  predicate Stops(d: Disposition) {
    d.Succeeded? || d.AlreadyExists?
  }

  function Classify(inv: Invocation, tool: Tool, o: Outcome): (d: Disposition)
    ensures d.AlreadyExists? || d.HttpError? || d.ToolError? <==> o.process.Failed?
    ensures d.DurationMismatch? || d.ValidationError? ==> inv.validated
  {
    match o.process
    case Exited =>
      if !inv.validated then Succeeded
      else (match o.validation
        case Passed => Succeeded
        case IncorrectDuration(target, actual) => DurationMismatch(target, actual)
        case Invalid => ValidationError)
    case Failed(stderr, _) =>
      var trimmed := RStrip(stderr);
      if EndsWith(trimmed, AlreadyExistsMarker) then AlreadyExists
      else if tool.isHttpError(trimmed) then HttpError
      else ToolError
  }

  // ---------------------------------------------------------------------
  // The `-t` rewrite

  /** `s.index(t)`, or None where it raises ValueError. */
  function IndexOf(s: seq<Token>, t: Token): (r: Option<nat>)
    ensures r.Some? ==> r.value < |s| && s[r.value] == t && t !in s[..r.value]
    ensures r.None? <==> t !in s
  {
    if s == [] then None
    else if s[0] == t then Some(0)
    else match IndexOf(s[1..], t)
      case None => None
      case Some(i) =>
        assert s[..i + 1] == [s[0]] + s[1..][..i];
        Some(i + 1)
  }

  /** The position of the value after the first "-t", if it is a number. */
  function DurationSlot(args: seq<Token>): (r: Option<nat>)
  {
    match IndexOf(args, Lit("-t"))
    case None => None
    case Some(i) => if i + 1 < |args| && args[i + 1].Num? then Some(i + 1) else None
  }

  /** The rewrite tried on one list: its value after the first "-t" plus
      `diff`, or the exception that attempt raises. */
  function AdjustList(args: seq<Token>, diff: real): (r: Result<seq<Token>, Exception>)
    ensures r.Ok? <==> DurationSlot(args).Some?
    ensures r.Ok? ==> var j := DurationSlot(args).value;
      r.value == args[j := Num(args[j].value + diff)]
    ensures r == Err(DurationIndexError) <==>
      IndexOf(args, Lit("-t")).Some? && IndexOf(args, Lit("-t")).value + 1 == |args|
  {
    match IndexOf(args, Lit("-t"))
    case None => Err(DurationValueError)
    case Some(i) =>
      if i + 1 == |args| then Err(DurationIndexError)
      else match args[i + 1]
        case Num(v) => Ok(args[i + 1 := Num(v + diff)])
        case Lit(_) => Err(DurationValueError)
  }

  /** The rewrite of lines 240-248: `input_args` first; a ValueError there
      (no "-t", or a value `float()` rejects) falls back to `output_args`;
      an IndexError there, and any error on `output_args`, escapes. */
  function AdjustDuration(inArgs: seq<Token>, outArgs: seq<Token>, diff: real)
    : Result<(seq<Token>, seq<Token>), Exception>
  {
    match AdjustList(inArgs, diff)
    case Ok(a) => Ok((a, outArgs))
    case Err(e) =>
      if e == DurationIndexError then Err(e)
      else match AdjustList(outArgs, diff)
        case Ok(b) => Ok((inArgs, b))
        case Err(e') => Err(e')
  }

  /** The value the next rewrite would change. */
  function DurationValue(inArgs: seq<Token>, outArgs: seq<Token>): Option<real>
  {
    match DurationSlot(inArgs)
    case Some(i) => Some(inArgs[i].value)
    case None =>
      if IndexOf(inArgs, Lit("-t")).Some? && IndexOf(inArgs, Lit("-t")).value + 1 == |inArgs| then None
      else match DurationSlot(outArgs)
        case Some(j) => Some(outArgs[j].value)
        case None => None
  }

  /** One list rewritten in place. */
  method AdjustListInPlace(args: array<Token>, diff: real) returns (raised: Option<Exception>)
    modifies args
    ensures match AdjustList(old(args[..]), diff)
      case Ok(s) => raised.None? && args[..] == s
      case Err(e) => raised == Some(e) && args[..] == old(args[..])
  {
    match IndexOf(args[..], Lit("-t")) {
      case None =>
        return Some(DurationValueError);
      case Some(i) =>
        if i + 1 == args.Length {
          return Some(DurationIndexError);
        }
        match args[i + 1] {
          case Num(v) =>
            args[i + 1] := Num(v + diff);
            return None;
          case Lit(_) =>
            return Some(DurationValueError);
        }
    }
  }

  /** Both lists, as the wrapper's nested `try` does it. */
  method AdjustDurationInPlace(inputArgs: array<Token>, outputArgs: array<Token>, diff: real)
    returns (raised: Option<Exception>)
    requires inputArgs != outputArgs
    modifies inputArgs, outputArgs
    ensures match AdjustDuration(old(inputArgs[..]), old(outputArgs[..]), diff)
      case Ok(adjusted) =>
        raised.None? && inputArgs[..] == adjusted.0 && outputArgs[..] == adjusted.1
      case Err(e) =>
        raised == Some(e) && inputArgs[..] == old(inputArgs[..]) && outputArgs[..] == old(outputArgs[..])
  {
    raised := AdjustListInPlace(inputArgs, diff);
    if raised == Some(DurationValueError) {
      raised := AdjustListInPlace(outputArgs, diff);
    }
  }

  // ---------------------------------------------------------------------
  // The retry loop

  /** One pass of the `for attempt in range(num_retries)` body, `attempt`
      counting from 0: run the command, then act on its disposition. */
  function AttemptStep(inv: Invocation, tool: Tool, inputs: seq<Token>, st: State, attempt: int)
    : (State, Disposition, Option<Exception>)
  {
    var o := tool.outcome(|st.commands|);
    var ran := st.(commands := st.commands + [Argv(inv, st.inArgs, inputs, st.outArgs)],
                   files := Produce(st.files, o.process, inv.outputPath));
    var d := Classify(inv, tool, o);
    var (next, raised) := Settle(inv, tool, o, d, ran, attempt);
    (next, d, raised)
  }

  /** The `break`, `continue` and `except` branches for an attempt that
      ended with outcome `o`, classified as `d`. */
  function Settle(inv: Invocation, tool: Tool, o: Outcome, d: Disposition, ran: State, attempt: int)
    : (State, Option<Exception>)
    requires d == Classify(inv, tool, o)
  {
    var out := inv.outputPath;
    var beforeLast := attempt < inv.numRetries - 1;
    match d
    case Succeeded => (ran, None)
    case AlreadyExists =>
      (ran.(lastErr := Some(ProcessFailure(o.process.stderr)),
            log := ran.log + [OutputExists(out)]), None)
    case HttpError =>
      (ran.(lastErr := Some(ProcessFailure(o.process.stderr))), None)
    case ToolError =>
      (ran.(lastErr := Some(ProcessFailure(o.process.stderr)),
            log := ran.log + [Event.ProcessRetry(o.process.stderr)],
            files := ran.files - {out}), None)
    case DurationMismatch(target, actual) =>
      var kept := ran.(lastErr := Some(DurationFailure(target, actual)),
                       files := if beforeLast then ran.files - {out} else ran.files);
      (match AdjustDuration(kept.inArgs, kept.outArgs, target - actual)
       case Err(e) => (kept, Some(e))
       case Ok(adjusted) =>
         (kept.(inArgs := adjusted.0, outArgs := adjusted.1,
                log := kept.log + [Event.DurationRetry(target, actual)]), None))
    case ValidationError =>
      (ran.(lastErr := Some(ValidationFailure),
            files := if beforeLast then ran.files - {out} else ran.files,
            log := ran.log + [Event.ValidationRetry(out)]), None)
  }

  /** Attempts `attempt`, `attempt + 1`, ... up to `num_retries - 1`, and the
      `for ... else` exhaustion record. */
  function RetryLoop(inv: Invocation, tool: Tool, inputs: seq<Token>, st: State, attempt: nat): Run
    decreases inv.numRetries - attempt
  {
    if attempt >= inv.numRetries then
      Run(st.(log := st.log + [RetriesExhausted(inv.numRetries, st.lastErr)]), Returned)
    else
      var (next, d, raised) := AttemptStep(inv, tool, inputs, st, attempt);
      if raised.Some? then Run(next, Raised(raised.value))
      else if Stops(d) then Run(next, Returned)
      else RetryLoop(inv, tool, inputs, next, attempt + 1)
  }

  /** A whole `ffmpeg(...)` call. */
  function Invoke(inv: Invocation, tool: Tool, inArgs: seq<Token>, outArgs: seq<Token>, w: Snapshot): Run
  {
    var st := State(inArgs, outArgs, w.files, w.log, w.commands, None);
    match ExpandedInputs(inv.input)
    case None => Run(st, Raised(InputTypeError))
    case Some(inputs) => RetryLoop(inv, tool, inputs, st, 0)
  }

  /** One pass of the loop body on the host: run the command, then act on
      its disposition. Returns the disposition, the exception that escapes
      the body if any, and the new `last_err`. */
  method Attempt(world: World, tool: Tool, inv: Invocation, inputs: seq<Token>,
                 inputArgs: array<Token>, outputArgs: array<Token>, attempt: int, lastErr: Option<Failure>)
    returns (d: Disposition, raised: Option<Exception>, err: Option<Failure>)
    requires inputArgs != outputArgs
    modifies world, inputArgs, outputArgs
    ensures var st := State(old(inputArgs[..]), old(outputArgs[..]), old(world.files), old(world.log),
                            old(world.commands), lastErr);
      AttemptStep(inv, tool, inputs, st, attempt)
        == (State(inputArgs[..], outputArgs[..], world.files, world.log, world.commands, err), d, raised)
  {
    var argv := Argv(inv, inputArgs[..], inputs, outputArgs[..]);
    var o := world.RunCommand(tool, argv, inv.outputPath);
    d := Classify(inv, tool, o);
    raised, err := Handle(world, tool, inv, o, d, inputArgs, outputArgs, attempt, lastErr);
  }

  /** The `except` clauses (and the validation callback's outcome) on the
      host, after the command has run. */
  method Handle(world: World, tool: Tool, inv: Invocation, o: Outcome, d: Disposition,
                inputArgs: array<Token>, outputArgs: array<Token>, attempt: int, lastErr: Option<Failure>)
    returns (raised: Option<Exception>, err: Option<Failure>)
    requires d == Classify(inv, tool, o)
    requires inputArgs != outputArgs
    modifies world, inputArgs, outputArgs
    ensures var ran := State(old(inputArgs[..]), old(outputArgs[..]), old(world.files), old(world.log),
                             old(world.commands), lastErr);
      Settle(inv, tool, o, d, ran, attempt)
        == (State(inputArgs[..], outputArgs[..], world.files, world.log, world.commands, err), raised)
  {
    raised, err := None, lastErr;
    match o.process {
      case Exited =>
        if !inv.validated {
          return;
        }
        match o.validation {
          case Passed =>
          case IncorrectDuration(target, actual) =>
            err := Some(DurationFailure(target, actual));
            if attempt < inv.numRetries - 1 {
              world.RemoveIfExists(inv.outputPath);
            }
            raised := AdjustDurationInPlace(inputArgs, outputArgs, target - actual);
            if raised.None? {
              world.Log(Event.DurationRetry(target, actual));
            }
          case Invalid =>
            err := Some(ValidationFailure);
            if attempt < inv.numRetries - 1 {
              world.RemoveIfExists(inv.outputPath);
            }
            world.Log(Event.ValidationRetry(inv.outputPath));
        }
      case Failed(stderr, _) =>
        err := Some(ProcessFailure(stderr));
        var trimmed := RStrip(stderr);
        if EndsWith(trimmed, AlreadyExistsMarker) {
          world.Log(OutputExists(inv.outputPath));
        } else if !tool.isHttpError(trimmed) {
          world.Log(Event.ProcessRetry(stderr));
          world.RemoveIfExists(inv.outputPath);
        }
    }
  }

  /** The wrapper itself, rewriting the caller's argument lists in place. */
  method Ffmpeg(world: World, tool: Tool, inv: Invocation, inputArgs: array<Token>, outputArgs: array<Token>)
    returns (status: Status)
    requires inputArgs != outputArgs
    modifies world, inputArgs, outputArgs
    ensures var run := Invoke(inv, tool, old(inputArgs[..]), old(outputArgs[..]), old(world.Snap()));
      status == run.status
      && inputArgs[..] == run.state.inArgs && outputArgs[..] == run.state.outArgs
      && world.Snap() == run.state.Snap()
  {
    ghost var goal := Invoke(inv, tool, inputArgs[..], outputArgs[..], world.Snap());
    var expanded := ExpandInputs(inv.input);
    if expanded.None? {
      return Raised(InputTypeError);
    }
    var inputs := expanded.value;
    var lastErr: Option<Failure> := None;
    var attempt := 0;
    while attempt < inv.numRetries
      invariant 0 <= attempt
      invariant goal == RetryLoop(inv, tool, inputs,
        State(inputArgs[..], outputArgs[..], world.files, world.log, world.commands, lastErr), attempt)
    {
      var d, raised;
      d, raised, lastErr := Attempt(world, tool, inv, inputs, inputArgs, outputArgs, attempt, lastErr);
      if raised.Some? {
        return Raised(raised.value);
      }
      if Stops(d) {
        return Returned;
      }
      attempt := attempt + 1;
    }
    world.Log(RetriesExhausted(inv.numRetries, lastErr));
    status := Returned;
  }
}
