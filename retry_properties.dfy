/** What the `ffmpeg` wrapper promises: the shape of every command it runs,
    the bound on attempts, when the exhaustion error is logged, which failures
    delete the output, and how the `-t` rewrite behaves and compounds. */
module RetryProperties {
  import opened Host
  import opened Text
  import opened Invoker

  // ---------------------------------------------------------------------
  // The argument vector

  /** `inputs` is exactly `-i p1 ... -i pn`. */
  lemma {:induction false} InputFlagsLayout(paths: seq<Path>)
    ensures |InputFlags(paths)| == 2 * |paths|
    ensures forall k :: 0 <= k < |paths| ==>
      InputFlags(paths)[2 * k] == Lit("-i") && InputFlags(paths)[2 * k + 1] == Lit(paths[k])
  {
    if paths != [] {
      var init := paths[..|paths| - 1];
      InputFlagsLayout(init);
      forall k | 0 <= k < |paths|
        ensures InputFlags(paths)[2 * k] == Lit("-i") && InputFlags(paths)[2 * k + 1] == Lit(paths[k])
      {
        if k < |init| {
          assert init[k] == paths[k];
        }
      }
    }
  }

  /** Every command is the tool, the input arguments, the inputs, the output
      arguments, then the output path and the log level, in that order. */
  lemma ArgvLayout(inv: Invocation, inArgs: seq<Token>, inputs: seq<Token>, outArgs: seq<Token>)
    ensures var c := Argv(inv, inArgs, inputs, outArgs);
      IssuedBy(inv, inputs, |inArgs|, |outArgs|, c)
      && c[1..1 + |inArgs|] == inArgs
      && c[1 + |inArgs| + |inputs|..|c| - 3] == outArgs
  {
    var c := Argv(inv, inArgs, inputs, outArgs);
    assert c[1..1 + |inArgs|] == inArgs;
    assert c[1 + |inArgs|..1 + |inArgs| + |inputs|] == inputs;
    assert c[1 + |inArgs| + |inputs|..|c| - 3] == outArgs;
  }

  // ---------------------------------------------------------------------
  // Classification

  /** The stderr is classified after `rstrip`: trailing whitespace never
      changes the disposition. */
  lemma ClassifyIgnoresTrailingWhitespace(inv: Invocation, tool: Tool, stderr: string, ws: string,
                                          partial: bool, v: Validation)
    requires forall i :: 0 <= i < |ws| ==> IsSpace(ws[i])
    ensures Classify(inv, tool, Outcome(Failed(stderr + ws, partial), v))
         == Classify(inv, tool, Outcome(Failed(stderr, partial), v))
  {
    RStripIgnoresTrailingSpace(stderr, ws);
  }

  /** The marker wins over the HTTP pattern: a stderr ending in it stops the
      loop whatever `isHttpError` says. */
  lemma MarkerBeatsHttpPattern(inv: Invocation, tool: Tool, stderr: string, partial: bool, v: Validation)
    requires EndsWith(RStrip(stderr), AlreadyExistsMarker)
    ensures Classify(inv, tool, Outcome(Failed(stderr, partial), v)) == AlreadyExists
  {
  }

  // ---------------------------------------------------------------------
  // One attempt

  /** The disposition of the attempt that runs as command number |st.commands|. */
  function DispositionOf(inv: Invocation, tool: Tool, st: State): Disposition {
    Classify(inv, tool, tool.outcome(|st.commands|))
  }

  /** What every attempt does, whatever its disposition: it runs exactly the
      command built from the current lists, and it only appends to the log,
      never an exhaustion record. */
  lemma AttemptRunsOneCommand(inv: Invocation, tool: Tool, inputs: seq<Token>, st: State, attempt: int)
    ensures var (next, d, raised) := AttemptStep(inv, tool, inputs, st, attempt);
      d == DispositionOf(inv, tool, st)
      && next.commands == st.commands + [Argv(inv, st.inArgs, inputs, st.outArgs)]
      && (raised.Some? ==> d.DurationMismatch?)
      && (!d.DurationMismatch? ==> next.inArgs == st.inArgs && next.outArgs == st.outArgs)
      && |next.inArgs| == |st.inArgs| && |next.outArgs| == |st.outArgs|
      && st.log <= next.log
      && NoExhaustion(next.log[|st.log|..])
  {
    var (next, d, raised) := AttemptStep(inv, tool, inputs, st, attempt);
    if d.DurationMismatch? {
      if AdjustDuration(st.inArgs, st.outArgs, d.target - d.actual).Ok? {
        AdjustDurationRewritesOneToken(st.inArgs, st.outArgs, d.target - d.actual);
      }
    }
  }

  predicate NoExhaustion(events: seq<Event>) {
    forall e :: e in events ==> !e.RetriesExhausted?
  }

  /** A success, or an "already exists" stderr, stops the loop and deletes
      nothing. */
  lemma StopDeletesNothing(inv: Invocation, tool: Tool, inputs: seq<Token>, st: State, attempt: nat)
    requires attempt < inv.numRetries
    requires Stops(DispositionOf(inv, tool, st))
    ensures var (next, _, raised) := AttemptStep(inv, tool, inputs, st, attempt);
      raised.None? && st.files <= next.files
      && RetryLoop(inv, tool, inputs, st, attempt) == Run(next, Returned)
  {
  }

  /** An HTTP-pattern failure uses up the attempt, keeps the output and logs
      nothing. */
  lemma HttpFailureKeepsOutput(inv: Invocation, tool: Tool, inputs: seq<Token>, st: State, attempt: int)
    requires DispositionOf(inv, tool, st).HttpError?
    ensures var (next, _, raised) := AttemptStep(inv, tool, inputs, st, attempt);
      raised.None? && st.files <= next.files && next.log == st.log
  {
  }

  /** Any other subprocess failure logs the error and deletes the output, on
      the last attempt too. */
  lemma ToolFailureDeletesOutput(inv: Invocation, tool: Tool, inputs: seq<Token>, st: State, attempt: int)
    requires DispositionOf(inv, tool, st).ToolError?
    ensures var (next, _, raised) := AttemptStep(inv, tool, inputs, st, attempt);
      raised.None? && next.files == st.files - {inv.outputPath}
      && next.log == st.log + [Event.ProcessRetry(tool.outcome(|st.commands|).process.stderr)]
  {
  }

  /** A duration mismatch or a failed validation deletes the output only
      when another attempt follows: the output is left iff this is the last
      attempt. No other file changes. */
  lemma LateFailureKeepsLastOutput(inv: Invocation, tool: Tool, inputs: seq<Token>, st: State, attempt: int)
    requires DispositionOf(inv, tool, st).DurationMismatch? || DispositionOf(inv, tool, st).ValidationError?
    ensures var (next, _, _) := AttemptStep(inv, tool, inputs, st, attempt);
      (inv.outputPath in next.files <==> attempt >= inv.numRetries - 1)
      && next.files - {inv.outputPath} == st.files - {inv.outputPath}
  {
  }

  /** A duration mismatch rewrites the `-t` value by `target - actual`, or
      lets the rewrite's exception escape with the lists untouched. */
  lemma DurationMismatchRewrites(inv: Invocation, tool: Tool, inputs: seq<Token>, st: State, attempt: int)
    requires DispositionOf(inv, tool, st).DurationMismatch?
    ensures var (next, d, raised) := AttemptStep(inv, tool, inputs, st, attempt);
      match AdjustDuration(st.inArgs, st.outArgs, d.target - d.actual)
      case Ok(adjusted) =>
        raised.None? && next.inArgs == adjusted.0 && next.outArgs == adjusted.1
        && next.log == st.log + [Event.DurationRetry(d.target, d.actual)]
      case Err(e) =>
        raised == Some(e) && next.inArgs == st.inArgs && next.outArgs == st.outArgs && next.log == st.log
  {
  }

  // ---------------------------------------------------------------------
  // The whole loop

  /** How many attempts `range(num_retries)` allows from `attempt` on. */
  function Remaining(inv: Invocation, attempt: nat): nat {
    if attempt < inv.numRetries then inv.numRetries - attempt else 0
  }

  /** At most `num_retries` commands run, each of them shaped by the wrapper's
      arguments, and the argument lists keep their lengths. */
  lemma {:induction false} RetryCommands(inv: Invocation, tool: Tool, inputs: seq<Token>, st: State, attempt: nat)
    ensures var r := RetryLoop(inv, tool, inputs, st, attempt);
      st.commands <= r.state.commands
      && |r.state.commands| <= |st.commands| + Remaining(inv, attempt)
      && (attempt < inv.numRetries ==> |r.state.commands| > |st.commands|)
      && |r.state.inArgs| == |st.inArgs| && |r.state.outArgs| == |st.outArgs|
      && forall k :: |st.commands| <= k < |r.state.commands| ==>
           IssuedBy(inv, inputs, |st.inArgs|, |st.outArgs|, r.state.commands[k])
    decreases inv.numRetries - attempt
  {
    if attempt < inv.numRetries {
      var (next, d, raised) := AttemptStep(inv, tool, inputs, st, attempt);
      AttemptRunsOneCommand(inv, tool, inputs, st, attempt);
      ArgvLayout(inv, st.inArgs, inputs, st.outArgs);
      if raised.None? && !Stops(d) {
        RetryCommands(inv, tool, inputs, next, attempt + 1);
      }
    }
  }

  predicate ExhaustionLogged(events: seq<Event>) {
    exists e :: e in events && e.RetriesExhausted?
  }

  /** Command number `c` stops the loop. */
  predicate StopsAt(inv: Invocation, tool: Tool, c: nat) {
    Stops(Classify(inv, tool, tool.outcome(c)))
  }

  /** Records appended without an exhaustion record do not change whether
      one is logged later. */
  lemma ExhaustionPastQuietPrefix(log0: seq<Event>, log1: seq<Event>, log2: seq<Event>)
    requires log0 <= log1 <= log2
    requires NoExhaustion(log1[|log0|..])
    ensures ExhaustionLogged(log2[|log0|..]) <==> ExhaustionLogged(log2[|log1|..])
  {
    var added := log1[|log0|..];
    assert log2[|log0|..] == added + log2[|log1|..];
  }

  /** The `for ... else`: the exhaustion error is logged iff no exception
      escaped and none of the attempts stopped the loop. */
  lemma {:induction false} ExhaustionIffNoStop(inv: Invocation, tool: Tool, inputs: seq<Token>, st: State, attempt: nat)
    ensures var r := RetryLoop(inv, tool, inputs, st, attempt);
      st.log <= r.state.log
      && (ExhaustionLogged(r.state.log[|st.log|..]) <==>
            r.status == Returned
            && forall c :: |st.commands| <= c < |st.commands| + Remaining(inv, attempt) ==> !StopsAt(inv, tool, c))
    decreases inv.numRetries - attempt
  {
    var r := RetryLoop(inv, tool, inputs, st, attempt);
    if attempt >= inv.numRetries {
      assert r.state.log[|st.log|..] == [RetriesExhausted(inv.numRetries, st.lastErr)];
      assert RetriesExhausted(inv.numRetries, st.lastErr) in r.state.log[|st.log|..];
    } else {
      var (next, d, raised) := AttemptStep(inv, tool, inputs, st, attempt);
      AttemptRunsOneCommand(inv, tool, inputs, st, attempt);
      assert StopsAt(inv, tool, |st.commands|) == Stops(d);
      if raised.Some? || Stops(d) {
        assert r.state == next;
        assert !ExhaustionLogged(r.state.log[|st.log|..]);
      } else {
        ExhaustionIffNoStop(inv, tool, inputs, next, attempt + 1);
        ExhaustionPastQuietPrefix(st.log, next.log, r.state.log);
      }
    }
  }

  /** When the exhaustion error is logged, it is the last record, and exactly
      `num_retries` commands ran. */
  lemma {:induction false} ExhaustionComesLast(inv: Invocation, tool: Tool, inputs: seq<Token>, st: State, attempt: nat)
    ensures var r := RetryLoop(inv, tool, inputs, st, attempt);
      st.log <= r.state.log
      && (ExhaustionLogged(r.state.log[|st.log|..]) ==>
            |r.state.commands| == |st.commands| + Remaining(inv, attempt)
            && r.state.log[|r.state.log| - 1] == RetriesExhausted(inv.numRetries, r.state.lastErr))
    decreases inv.numRetries - attempt
  {
    var r := RetryLoop(inv, tool, inputs, st, attempt);
    if attempt < inv.numRetries {
      var (next, d, raised) := AttemptStep(inv, tool, inputs, st, attempt);
      AttemptRunsOneCommand(inv, tool, inputs, st, attempt);
      if raised.Some? || Stops(d) {
        assert r.state == next;
        assert !ExhaustionLogged(r.state.log[|st.log|..]);
      } else {
        ExhaustionComesLast(inv, tool, inputs, next, attempt + 1);
        ExhaustionPastQuietPrefix(st.log, next.log, r.state.log);
      }
    }
  }

  /** A tool that fails with an HTTP error on every attempt: exactly
      `num_retries` commands run, no file is deleted, and the exhaustion
      error is the only record logged. */
  lemma {:induction false} HttpFailuresExhaust(inv: Invocation, tool: Tool, inputs: seq<Token>, st: State, attempt: nat)
    requires forall c :: |st.commands| <= c < |st.commands| + Remaining(inv, attempt) ==>
      Classify(inv, tool, tool.outcome(c)).HttpError?
    ensures var r := RetryLoop(inv, tool, inputs, st, attempt);
      r.status == Returned
      && |r.state.commands| == |st.commands| + Remaining(inv, attempt)
      && st.files <= r.state.files
      && r.state.log == st.log + [RetriesExhausted(inv.numRetries, r.state.lastErr)]
    decreases inv.numRetries - attempt
  {
    if attempt < inv.numRetries {
      var (next, d, raised) := AttemptStep(inv, tool, inputs, st, attempt);
      assert DispositionOf(inv, tool, st).HttpError?;
      HttpFailureKeepsOutput(inv, tool, inputs, st, attempt);
      AttemptRunsOneCommand(inv, tool, inputs, st, attempt);
      HttpFailuresExhaust(inv, tool, inputs, next, attempt + 1);
    }
  }

  /** A whole call: an input that is neither a string nor iterable raises
      ValueError before any command; with `num_retries <= 0` nothing runs and
      the exhaustion error is logged with no last error. */
  lemma InvokeEdgeCases(inv: Invocation, tool: Tool, inArgs: seq<Token>, outArgs: seq<Token>, w: Snapshot)
    ensures inv.input.NotIterable? ==>
      Invoke(inv, tool, inArgs, outArgs, w).status == Raised(InputTypeError)
      && Invoke(inv, tool, inArgs, outArgs, w).state.Snap() == w
    ensures !inv.input.NotIterable? && inv.numRetries <= 0 ==>
      var r := Invoke(inv, tool, inArgs, outArgs, w);
      r.status == Returned && r.state.commands == w.commands && r.state.files == w.files
      && r.state.log == w.log + [RetriesExhausted(inv.numRetries, None)]
  {
  }

  /** A whole call runs at most `num_retries` commands, each one the tool
      with the call's expanded inputs and output path. */
  lemma InvokeCommands(inv: Invocation, tool: Tool, inArgs: seq<Token>, outArgs: seq<Token>, w: Snapshot)
    requires !inv.input.NotIterable?
    ensures var r := Invoke(inv, tool, inArgs, outArgs, w);
      w.commands <= r.state.commands
      && |r.state.commands| <= |w.commands| + Remaining(inv, 0)
      && (inv.numRetries > 0 ==> |r.state.commands| > |w.commands|)
      && forall k :: |w.commands| <= k < |r.state.commands| ==>
           IssuedBy(inv, ExpandedInputs(inv.input).value, |inArgs|, |outArgs|, r.state.commands[k])
  {
    RetryCommands(inv, tool, ExpandedInputs(inv.input).value, State(inArgs, outArgs, w.files, w.log, w.commands, None), 0);
  }

  /** Without a validation callback no disposition rewrites `-t`, so no
      exception escapes the loop and the argument lists are left as given. */
  lemma {:induction false} UnvalidatedLoopNeverRaises(inv: Invocation, tool: Tool, inputs: seq<Token>,
                                                      st: State, attempt: nat)
    requires !inv.validated
    ensures var r := RetryLoop(inv, tool, inputs, st, attempt);
      r.status == Returned && r.state.inArgs == st.inArgs && r.state.outArgs == st.outArgs
    decreases inv.numRetries - attempt
  {
    if attempt < inv.numRetries {
      var (next, d, raised) := AttemptStep(inv, tool, inputs, st, attempt);
      AttemptRunsOneCommand(inv, tool, inputs, st, attempt);
      if !Stops(d) {
        UnvalidatedLoopNeverRaises(inv, tool, inputs, next, attempt + 1);
      }
    }
  }

  /** A call without a validation callback whose input is a string or an
      iterable returns normally. */
  lemma UnvalidatedCallReturns(inv: Invocation, tool: Tool, inArgs: seq<Token>, outArgs: seq<Token>, w: Snapshot)
    requires !inv.validated && !inv.input.NotIterable?
    ensures Invoke(inv, tool, inArgs, outArgs, w).status == Returned
  {
    UnvalidatedLoopNeverRaises(inv, tool, ExpandedInputs(inv.input).value,
                               State(inArgs, outArgs, w.files, w.log, w.commands, None), 0);
  }

  /** Command number `c` fails with an HTTP-pattern stderr. */
  predicate FailsWithHttpError(tool: Tool, c: nat) {
    var p := tool.outcome(c).process;
    p.Failed? && !EndsWith(RStrip(p.stderr), AlreadyExistsMarker) && tool.isHttpError(RStrip(p.stderr))
  }

  /** `HttpFailuresExhaust` for a whole call. */
  lemma InvokeHttpFailuresExhaust(inv: Invocation, tool: Tool, inArgs: seq<Token>, outArgs: seq<Token>, w: Snapshot)
    requires !inv.input.NotIterable?
    requires forall c :: |w.commands| <= c < |w.commands| + Remaining(inv, 0) ==> FailsWithHttpError(tool, c)
    ensures var r := Invoke(inv, tool, inArgs, outArgs, w);
      r.status == Returned
      && |r.state.commands| == |w.commands| + Remaining(inv, 0)
      && w.files <= r.state.files
      && r.state.log == w.log + [RetriesExhausted(inv.numRetries, r.state.lastErr)]
  {
    forall c | |w.commands| <= c < |w.commands| + Remaining(inv, 0)
      ensures Classify(inv, tool, tool.outcome(c)).HttpError?
    {
      assert FailsWithHttpError(tool, c);
    }
    HttpFailuresExhaust(inv, tool, ExpandedInputs(inv.input).value,
                        State(inArgs, outArgs, w.files, w.log, w.commands, None), 0);
  }

  // ---------------------------------------------------------------------
  // The `-t` rewrite

  /** The lists differ at most at position `j`. */
  predicate SameExceptAt(s: seq<Token>, t: seq<Token>, j: nat) {
    |s| == |t| && forall i :: 0 <= i < |s| && i != j ==> s[i] == t[i]
  }

  /** Overwriting a number with a number does not move the first "-t". */
  lemma IndexOfIgnoresNumbers(s: seq<Token>, j: nat, x: real, t: Token)
    requires j < |s| && s[j].Num? && t.Lit?
    ensures IndexOf(s[j := Num(x)], t) == IndexOf(s, t)
  {
    var s' := s[j := Num(x)];
    assert forall i :: 0 <= i < |s| ==> (s'[i] == t <==> s[i] == t);
  }

  /** On one list, a successful rewrite keeps the first "-t" where it was
      and changes only the number after it. */
  lemma AdjustListRewritesSlot(args: seq<Token>, diff: real)
    requires AdjustList(args, diff).Ok?
    ensures var r := AdjustList(args, diff).value; var j := DurationSlot(args).value;
      IndexOf(r, Lit("-t")) == IndexOf(args, Lit("-t"))
      && DurationSlot(r) == Some(j)
      && r[j] == Num(args[j].value + diff)
      && SameExceptAt(args, r, j)
  {
    var j := DurationSlot(args).value;
    var r := args[j := Num(args[j].value + diff)];
    assert AdjustList(args, diff).value == r;
    IndexOfIgnoresNumbers(args, j, args[j].value + diff, Lit("-t"));
    assert r[j] == Num(args[j].value + diff);
  }

  /** The rewrite fails iff no duration value is reachable: none follows the
      first "-t" of `input_args`, and either that "-t" is the last token or
      none follows the first "-t" of `output_args`. With no "-t" in either
      list the ValueError escapes. */
  lemma AdjustDurationFailsIffNoValue(inArgs: seq<Token>, outArgs: seq<Token>, diff: real)
    ensures var r := AdjustDuration(inArgs, outArgs, diff);
      (r.Ok? <==> DurationValue(inArgs, outArgs).Some?)
      && (Lit("-t") !in inArgs && Lit("-t") !in outArgs ==> r == Err(DurationValueError))
  {
  }

  /** A successful rewrite changes exactly the value after the first "-t" of
      `input_args` (else of `output_args`) to its old value plus `diff`. */
  lemma AdjustDurationRewritesOneToken(inArgs: seq<Token>, outArgs: seq<Token>, diff: real)
    requires AdjustDuration(inArgs, outArgs, diff).Ok?
    ensures var r := AdjustDuration(inArgs, outArgs, diff).value;
      DurationValue(r.0, r.1) == Some(DurationValue(inArgs, outArgs).value + diff)
      && ((DurationSlot(inArgs).Some? && r.1 == outArgs
           && SameExceptAt(inArgs, r.0, DurationSlot(inArgs).value))
       || (DurationSlot(inArgs).None? && r.0 == inArgs && DurationSlot(outArgs).Some?
           && SameExceptAt(outArgs, r.1, DurationSlot(outArgs).value)))
  {
    if AdjustList(inArgs, diff).Ok? {
      AdjustListRewritesSlot(inArgs, diff);
    } else {
      AdjustListRewritesSlot(outArgs, diff);
    }
  }

  /** One list rewritten twice is that list rewritten once by the sum. */
  lemma AdjustListCompounds(args: seq<Token>, d1: real, d2: real)
    requires AdjustList(args, d1).Ok?
    ensures AdjustList(AdjustList(args, d1).value, d2) == AdjustList(args, d1 + d2)
  {
    var j := DurationSlot(args).value;
    IndexOfIgnoresNumbers(args, j, args[j].value + d1, Lit("-t"));
    var once := AdjustList(args, d1).value;
    assert once[j := Num(once[j].value + d2)] == args[j := Num(args[j].value + (d1 + d2))];
  }

  /** Adjustments compound: each rewrite starts from the value the previous
      one wrote, so two mismatches with differences d1 and d2 leave the same
      lists as one with d1 + d2. */
  lemma AdjustDurationCompounds(inArgs: seq<Token>, outArgs: seq<Token>, d1: real, d2: real)
    requires AdjustDuration(inArgs, outArgs, d1).Ok?
    ensures var once := AdjustDuration(inArgs, outArgs, d1).value;
      AdjustDuration(once.0, once.1, d2) == AdjustDuration(inArgs, outArgs, d1 + d2)
  {
    if AdjustList(inArgs, d1).Ok? {
      AdjustListCompounds(inArgs, d1, d2);
    } else {
      AdjustListCompounds(outArgs, d1, d2);
    }
  }
}
