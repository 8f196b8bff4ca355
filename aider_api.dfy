/**
 * The request handling of the aider HTTP service, `collect_aider_output`:
 * the argument vector handed to the aider executable, the loop that drains
 * the child's stdout and stderr, the classification of the captured stdout,
 * and the result returned when the child cannot be started.
 *
 * The child process is represented by what it does: either it fails to
 * start, with a reason, or it starts and the drain loop's reads yield a
 * scripted sequence of steps.
 */
module AiderApi {
  import opened Wrappers
  import opened Text
  import Shlex
  import PosixPath

  // ---------------------------------------------------------------------
  // The request
  // ---------------------------------------------------------------------

  /** One entry of the request's `files` mapping: a file name and its text. */
  datatype FileEntry = FileEntry(name: string, content: string)

  /**
   * The request body. `files` lists the mapping's entries in insertion
   * order and is `None` when the field is absent.
   */
  datatype AiderRequest = AiderRequest(
    message: string,
    files: Option<seq<FileEntry>>,
    autoCommits: bool,
    dirtyCommits: bool,
    dryRun: bool,
    root: string)

  /** A request that gives only its message; every other field takes its declared default. */
  function RequestWithDefaults(message: string): AiderRequest
  {
    AiderRequest(message, None, true, true, false, ".")
  }

  /** Python's truth value of `files`: present and non-empty. */
  predicate HasFiles(files: Option<seq<FileEntry>>)
  {
    files.Some? && files.value != []
  }

  // ---------------------------------------------------------------------
  // The argument vector
  // ---------------------------------------------------------------------

  /** The number of arguments that come before the file paths. */
  const FixedArguments := 9

  /** `cmd` is the argument vector the service builds for `req`, element by element. */
  predicate IsCommandFor(cmd: seq<string>, aiderPath: string, tempDir: string, req: AiderRequest)
  {
    var n := if HasFiles(req.files) then |req.files.value| else 0;
    && |cmd| == FixedArguments + n
    && cmd[0] == aiderPath
    && cmd[1] == "--message"
    && cmd[2] == Shlex.Quote(req.message)
    && cmd[3] == (if !req.dryRun then "--stream" else "--no-stream")
    && cmd[4] == (if req.autoCommits then "--auto-commits" else "--no-auto-commits")
    && cmd[5] == (if req.dirtyCommits then "--dirty-commits" else "--no-dirty-commits")
    && cmd[6] == (if req.dryRun then "--dry-run" else "--no-dry-run")
    && cmd[7] == "--no-show-model-warnings"
    && cmd[8] == "--yes"
    && forall i :: 0 <= i < n ==> cmd[FixedArguments + i] == PosixPath.Join(tempDir, req.files.value[i].name)
  }

  /**
   * Builds the command: the fixed arguments, then, when the mapping is
   * non-empty, the list of joined paths for its keys, appended in one go.
   */
  method BuildCommand(aiderPath: string, tempDir: string, req: AiderRequest) returns (cmd: seq<string>)
    ensures IsCommandFor(cmd, aiderPath, tempDir, req)
  {
    cmd := [
      aiderPath,
      "--message", Shlex.Quote(req.message),
      if !req.dryRun then "--stream" else "--no-stream",
      if req.autoCommits then "--auto-commits" else "--no-auto-commits",
      if req.dirtyCommits then "--dirty-commits" else "--no-dirty-commits",
      if req.dryRun then "--dry-run" else "--no-dry-run",
      "--no-show-model-warnings",
      "--yes"
    ];
    if HasFiles(req.files) {
      var files := req.files.value;
      var paths: seq<string> := [];
      for i := 0 to |files|
        invariant |paths| == i
        invariant forall k :: 0 <= k < i ==> paths[k] == PosixPath.Join(tempDir, files[k].name)
      {
        paths := paths + [PosixPath.Join(tempDir, files[i].name)];
      }
      cmd := cmd + paths;
    }
  }

  /** The description above fixes the command completely: two vectors that meet it are equal. */
  lemma CommandIsDetermined(c1: seq<string>, c2: seq<string>, aiderPath: string, tempDir: string, req: AiderRequest)
    requires IsCommandFor(c1, aiderPath, tempDir, req) && IsCommandFor(c2, aiderPath, tempDir, req)
    ensures c1 == c2
  {
    forall i | 0 <= i < |c1| ensures c1[i] == c2[i] {
      if i >= FixedArguments {
        var j := i - FixedArguments;
        assert c1[FixedArguments + j] == PosixPath.Join(tempDir, req.files.value[j].name);
        assert c2[FixedArguments + j] == PosixPath.Join(tempDir, req.files.value[j].name);
      }
    }
  }

  /**
   * A request giving only a message runs aider streaming, with automatic and
   * dirty commits, not as a dry run, and names no files.
   */
  lemma DefaultRequestCommand(cmd: seq<string>, aiderPath: string, tempDir: string, message: string)
    requires IsCommandFor(cmd, aiderPath, tempDir, RequestWithDefaults(message))
    ensures cmd == [aiderPath, "--message", Shlex.Quote(message), "--stream", "--auto-commits",
                    "--dirty-commits", "--no-dry-run", "--no-show-model-warnings", "--yes"]
  {
  }

  /** An empty mapping is treated as no mapping at all: both give the nine fixed arguments only. */
  lemma EmptyFilesLikeAbsent(cmd: seq<string>, aiderPath: string, tempDir: string, req: AiderRequest)
    requires req.files == Some([])
    ensures IsCommandFor(cmd, aiderPath, tempDir, req) <==> IsCommandFor(cmd, aiderPath, tempDir, req.(files := None))
    ensures IsCommandFor(cmd, aiderPath, tempDir, req) ==> |cmd| == FixedArguments
  {
  }

  /**
   * The message travels as one argument holding its shell-quoted form. No
   * shell runs, so aider receives that form itself: the message when it is
   * non-empty and all safe characters, otherwise the message wrapped in
   * single quotes, which only a shell's quote removal would turn back into
   * the message.
   */
  lemma MessageArgumentIsQuoted(cmd: seq<string>, aiderPath: string, tempDir: string, req: AiderRequest)
    requires IsCommandFor(cmd, aiderPath, tempDir, req)
    ensures Shlex.ShellWord(cmd[2]) == Some(req.message)
    ensures cmd[2] == req.message <==> req.message != [] && Shlex.AllSafe(req.message)
    ensures cmd[2] != req.message ==> cmd[2][0] == '\'' && cmd[2][|cmd[2]| - 1] == '\''
  {
    Shlex.QuoteRoundTrip(req.message);
    Shlex.QuoteChanges(req.message);
  }

  /**
   * File paths are not checked: the argument for a relative name starts with
   * the temporary directory, with any `..` kept as written, and an absolute
   * name replaces the directory.
   */
  lemma FilePathPlacement(cmd: seq<string>, aiderPath: string, tempDir: string, req: AiderRequest, i: nat)
    requires IsCommandFor(cmd, aiderPath, tempDir, req)
    requires HasFiles(req.files) && i < |req.files.value|
    ensures var name := req.files.value[i].name;
      (PosixPath.IsAbsolute(name) ==> cmd[FixedArguments + i] == name)
      && (!PosixPath.IsAbsolute(name) ==> IsPrefix(tempDir, cmd[FixedArguments + i]))
  {
  }

  // ---------------------------------------------------------------------
  // The drain loop
  // ---------------------------------------------------------------------

  /**
   * What one iteration obtains from reading both pipes and decoding the two
   * results. `Read` carries both decoded texts (empty at end of stream).
   * `Raised` is an exception in that iteration; `outKept` is the stdout
   * text that was already added before it (the exception came from decoding
   * stderr), empty otherwise.
   */
  datatype ReadStep =
    | Read(out: string, err: string)
    | Raised(outKept: string, reason: string)

  /** The step the loop sees at iteration `i`: past the script both pipes are at end of stream. */
  function StepAt(script: seq<ReadStep>, i: nat): ReadStep
  {
    if i < |script| then script[i] else Read("", "")
  }

  /** The loop leaves after this step: an exception, or nothing read on either pipe. */
  predicate Stops(step: ReadStep)
  {
    step.Raised? || (step.out == [] && step.err == [])
  }

  /** The line the loop appends to stderr when an iteration raises. */
  function ReadFailureLine(reason: string): string
  {
    "Error: Failed to process output: " + reason + "\n"
  }

  /** The text captured on the two channels. */
  datatype Captured = Captured(out: string, err: string)

  /** What the loop captures from `script`, step by step. */
  function Drain(script: seq<ReadStep>): Captured
    decreases |script|
  {
    if script == [] then Captured("", "")
    else
      match script[0]
      case Raised(kept, reason) => Captured(kept, ReadFailureLine(reason))
      case Read(o, e) =>
        if o == [] && e == [] then Captured("", "")
        else
          var rest := Drain(script[1..]);
          Captured(o + rest.out, e + rest.err)
  }

  /** The text one step adds to stdout. */
  function StdoutChunk(step: ReadStep): string
  {
    match step
    case Read(o, _) => o
    case Raised(kept, _) => kept
  }

  /** The text one step adds to stderr. */
  function StderrChunk(step: ReadStep): string
  {
    match step
    case Read(_, e) => e
    case Raised(_, reason) => ReadFailureLine(reason)
  }

  /** The in-order concatenation of the stdout chunks of `steps`. */
  function StdoutText(steps: seq<ReadStep>): string
  {
    Concat(seq(|steps|, i requires 0 <= i < |steps| => StdoutChunk(steps[i])))
  }

  /** The in-order concatenation of the stderr chunks of `steps`. */
  function StderrText(steps: seq<ReadStep>): string
  {
    Concat(seq(|steps|, i requires 0 <= i < |steps| => StderrChunk(steps[i])))
  }

  /** One more step adds its chunk at the end of each channel's text. */
  lemma TextSnoc(steps: seq<ReadStep>, step: ReadStep)
    ensures StdoutText(steps + [step]) == StdoutText(steps) + StdoutChunk(step)
    ensures StderrText(steps + [step]) == StderrText(steps) + StderrChunk(step)
  {
    var all := steps + [step];
    var outs := seq(|steps|, i requires 0 <= i < |steps| => StdoutChunk(steps[i]));
    var errs := seq(|steps|, i requires 0 <= i < |steps| => StderrChunk(steps[i]));
    assert seq(|all|, i requires 0 <= i < |all| => StdoutChunk(all[i])) == outs + [StdoutChunk(step)];
    assert seq(|all|, i requires 0 <= i < |all| => StderrChunk(all[i])) == errs + [StderrChunk(step)];
    ConcatAppend(outs, [StdoutChunk(step)]);
    ConcatAppend(errs, [StderrChunk(step)]);
    assert Concat([StdoutChunk(step)]) == StdoutChunk(step) by {
      assert [StdoutChunk(step)][1..] == [];
    }
    assert Concat([StderrChunk(step)]) == StderrChunk(step) by {
      assert [StderrChunk(step)][1..] == [];
    }
  }

  /** One step in front adds its chunk at the start of each channel's text. */
  lemma TextCons(step: ReadStep, steps: seq<ReadStep>)
    ensures StdoutText([step] + steps) == StdoutChunk(step) + StdoutText(steps)
    ensures StderrText([step] + steps) == StderrChunk(step) + StderrText(steps)
  {
    var all := [step] + steps;
    var outs := seq(|all|, i requires 0 <= i < |all| => StdoutChunk(all[i]));
    var errs := seq(|all|, i requires 0 <= i < |all| => StderrChunk(all[i]));
    assert outs[0] == StdoutChunk(step);
    assert outs[1..] == seq(|steps|, i requires 0 <= i < |steps| => StdoutChunk(steps[i]));
    assert errs[0] == StderrChunk(step);
    assert errs[1..] == seq(|steps|, i requires 0 <= i < |steps| => StderrChunk(steps[i]));
  }

  /**
   * Steps that do not stop the loop contribute their chunks, in order, in
   * front of whatever the rest of the script yields.
   */
  lemma {:induction false} DrainAfterPrefix(prefix: seq<ReadStep>, rest: seq<ReadStep>)
    requires forall j :: 0 <= j < |prefix| ==> !Stops(prefix[j])
    ensures Drain(prefix + rest) == Captured(StdoutText(prefix) + Drain(rest).out, StderrText(prefix) + Drain(rest).err)
    decreases |prefix|
  {
    if prefix == [] {
      assert prefix + rest == rest;
      assert StdoutText(prefix) == [] && StderrText(prefix) == [];
    } else {
      var p0, tail := prefix[0], prefix[1..];
      assert prefix == [p0] + tail;
      assert (prefix + rest)[0] == p0 && (prefix + rest)[1..] == tail + rest;
      DrainAfterPrefix(tail, rest);
      TextCons(p0, tail);
    }
  }

  /** The index of the first step that stops the loop, `|script|` when none does. */
  function FirstStop(script: seq<ReadStep>): (k: nat)
    ensures k <= |script|
    ensures k < |script| ==> Stops(script[k])
    ensures forall j :: 0 <= j < k ==> !Stops(script[j])
    decreases |script|
  {
    if script == [] || Stops(script[0]) then 0
    else
      var k := FirstStop(script[1..]);
      assert forall j :: 1 <= j < k + 1 ==> script[j] == script[1..][j - 1];
      k + 1
  }

  /** The steps the loop consumes: everything up to and including the first stopping step. */
  function ConsumedSteps(script: seq<ReadStep>): (steps: seq<ReadStep>)
  {
    var k := FirstStop(script);
    if k < |script| then script[..k + 1] else script
  }

  /**
   * The captured text of each channel is exactly the in-order concatenation
   * of the chunks of the steps the loop consumed, the chunks of the stopping
   * step included (nothing at end of stream, the kept stdout and the error
   * line after an exception); steps after it are never read.
   */
  lemma DrainIsConcatenation(script: seq<ReadStep>)
    ensures Drain(script) == Captured(StdoutText(ConsumedSteps(script)), StderrText(ConsumedSteps(script)))
  {
    var k := FirstStop(script);
    DrainAtStop(script, k);
    if k == |script| {
      assert script[..k] == script;
    } else {
      PrefixStep(script, k);
    }
  }

  /** An iteration that reads nothing on either pipe ends the loop; later steps are never read. */
  lemma DrainStopsAtEndOfStream(prefix: seq<ReadStep>, later: seq<ReadStep>)
    requires forall j :: 0 <= j < |prefix| ==> !Stops(prefix[j])
    ensures Drain(prefix + [Read("", "")] + later) == Captured(StdoutText(prefix), StderrText(prefix))
  {
    assert prefix + [Read("", "")] + later == prefix + ([Read("", "")] + later);
    DrainAfterPrefix(prefix, [Read("", "")] + later);
  }

  /**
   * An exception ends the loop: stderr gets the error line after what was
   * already captured, stdout keeps what it had, and later steps are never read.
   */
  lemma DrainStopsAtException(prefix: seq<ReadStep>, kept: string, reason: string, later: seq<ReadStep>)
    requires forall j :: 0 <= j < |prefix| ==> !Stops(prefix[j])
    ensures Drain(prefix + [Raised(kept, reason)] + later)
         == Captured(StdoutText(prefix) + kept, StderrText(prefix) + "Error: Failed to process output: " + reason + "\n")
  {
    assert prefix + [Raised(kept, reason)] + later == prefix + ([Raised(kept, reason)] + later);
    DrainAfterPrefix(prefix, [Raised(kept, reason)] + later);
  }

  /** One more consumed step extends each channel's text by its chunk. */
  lemma PrefixStep(script: seq<ReadStep>, i: nat)
    requires i < |script|
    ensures StdoutText(script[..i + 1]) == StdoutText(script[..i]) + StdoutChunk(script[i])
    ensures StderrText(script[..i + 1]) == StderrText(script[..i]) + StderrChunk(script[i])
  {
    assert script[..i + 1] == script[..i] + [script[i]];
    TextSnoc(script[..i], script[i]);
  }

  /**
   * When the first `i` steps continue the loop and step `i` stops it, the
   * capture is the consumed text plus that step's chunks.
   */
  lemma DrainAtStop(script: seq<ReadStep>, i: nat)
    requires i <= |script|
    requires forall j :: 0 <= j < i ==> !Stops(script[j])
    requires Stops(StepAt(script, i))
    ensures Drain(script).out == StdoutText(script[..i]) + StdoutChunk(StepAt(script, i))
    ensures Drain(script).err == StderrText(script[..i]) + StderrChunk(StepAt(script, i))
  {
    assert script[..i] + script[i..] == script;
    DrainAfterPrefix(script[..i], script[i..]);
    if i < |script| {
      assert script[i..][0] == script[i];
    }
  }

  /** `if data: lines.extend(data.splitlines(True))`: the joined text grows by `text`. */
  method ExtendWithChunk(lines: seq<string>, text: string) returns (extended: seq<string>)
    ensures Concat(extended) == Concat(lines) + text
  {
    extended := lines;
    if text != [] {
      ExtendWithLines(lines, text);
      extended := lines + SplitLinesKeepEnds(text);
    }
  }

  /**
   * The loop of `collect_aider_output`: each iteration reads both pipes,
   * extends each list with the lines of what it read, and leaves when both
   * reads are empty or the iteration raises. Joining each list gives the
   * text `Drain` describes.
   */
  method DrainOutput(script: seq<ReadStep>) returns (stdoutLines: seq<string>, stderrLines: seq<string>)
    ensures Concat(stdoutLines) == Drain(script).out
    ensures Concat(stderrLines) == Drain(script).err
  {
    stdoutLines, stderrLines := [], [];
    var i := 0;
    while true
      invariant 0 <= i <= |script|
      invariant forall j :: 0 <= j < i ==> !Stops(script[j])
      invariant Concat(stdoutLines) == StdoutText(script[..i])
      invariant Concat(stderrLines) == StderrText(script[..i])
      decreases |script| - i
    {
      var step := StepAt(script, i);
      match step {
        case Raised(kept, reason) =>
          DrainAtStop(script, i);
          stdoutLines := ExtendWithChunk(stdoutLines, kept);
          AppendPart(stderrLines, ReadFailureLine(reason));
          stderrLines := stderrLines + [ReadFailureLine(reason)];
          break;
        case Read(out, err) =>
          stdoutLines := ExtendWithChunk(stdoutLines, out);
          stderrLines := ExtendWithChunk(stderrLines, err);
          if out == [] && err == [] {
            DrainAtStop(script, i);
            break;
          }
          PrefixStep(script, i);
          i := i + 1;
      }
    }
  }

  // ---------------------------------------------------------------------
  // Classification and the result
  // ---------------------------------------------------------------------

  const TroubleshootingLink := "https://aider.chat/docs/troubleshooting"
  const ModelsAndKeysPage := "models-and-keys.html"

  /**
   * The `error` entry for the captured stdout: none without the
   * troubleshooting link; with it, a generic message, made specific to a
   * missing key or model when the models-and-keys page is mentioned too.
   */
  function Classify(rawStdout: string): Option<string>
  {
    if !Contains(rawStdout, TroubleshootingLink) then None
    else if Contains(rawStdout, ModelsAndKeysPage) then Some("something went wrong, AI key or model not found")
    else Some("something went wrong")
  }

  /**
   * Proof step: the generic message with the key-or-model suffix appended is
   * the specific message.
   */
  lemma KeyOrModelMessage()
    ensures "something went wrong" + ", AI key or model not found" == "something went wrong, AI key or model not found"
  {
  }

  /** The dictionary the service returns; `error` is `None` when the key is absent. */
  datatype AiderResult = AiderResult(rawStdout: string, rawStderr: string, error: Option<string>)

  /**
   * Joins the two line lists into the result and adds the `error` entry:
   * first the generic message, then the key-or-model suffix appended to it.
   */
  method AssembleResult(stdoutLines: seq<string>, stderrLines: seq<string>) returns (content: AiderResult)
    ensures content.rawStdout == Concat(stdoutLines) && content.rawStderr == Concat(stderrLines)
    ensures content.error == Classify(content.rawStdout)
  {
    content := AiderResult(Concat(stdoutLines), Concat(stderrLines), None);
    if Contains(content.rawStdout, TroubleshootingLink) {
      content := content.(error := Some("something went wrong"));
      if Contains(content.rawStdout, ModelsAndKeysPage) {
        content := content.(error := Some(content.error.value + ", AI key or model not found"));
        KeyOrModelMessage();
      }
    }
  }

  /**
   * Mentioning the models-and-keys page without the troubleshooting link is no
   * error. The second clause is the concrete example: the page name alone.
   */
  lemma KeyPageAloneIsNoError(rawStdout: string)
    requires !Contains(rawStdout, TroubleshootingLink)
    ensures Classify(rawStdout) == None
    ensures Classify(ModelsAndKeysPage) == None
  {
    ContainsNeedsLength(ModelsAndKeysPage, TroubleshootingLink);
  }

  /**
   * Output printed later never clears or weakens the classification: an
   * error stays an error, and the key-or-model error stays that error.
   */
  lemma ClassificationPersists(earlier: string, later: string)
    ensures Classify(earlier).Some? ==> Classify(earlier + later).Some?
    ensures Classify(earlier) == Some("something went wrong, AI key or model not found")
         ==> Classify(earlier + later) == Classify(earlier)
  {
    ContainsExtends(earlier, later, TroubleshootingLink);
    ContainsExtends(earlier, later, ModelsAndKeysPage);
  }

  // ---------------------------------------------------------------------
  // The whole call
  // ---------------------------------------------------------------------

  /** How the child process behaves: it does not start, or it starts and its pipes yield `script`. */
  datatype Launch = Started(script: seq<ReadStep>) | StartFailed(reason: string)

  /** The line reported on stderr when the child cannot be started. */
  function StartFailureLine(reason: string): string
  {
    "Error: Failed to start aider process: " + reason + "\n"
  }

  /** The dictionary `collect_aider_output` returns for a child that behaves as `launch` says. */
  function Response(launch: Launch): AiderResult
  {
    match launch
    case StartFailed(reason) => AiderResult("", StartFailureLine(reason), None)
    case Started(script) =>
      var captured := Drain(script);
      AiderResult(captured.out, captured.err, Classify(captured.out))
  }

  /**
   * `collect_aider_output` once the temporary directory exists: build the
   * command, and then either report the start failure or drain the pipes
   * and assemble the classified result.
   */
  method CollectAiderOutput(aiderPath: string, tempDir: string, req: AiderRequest, launch: Launch)
    returns (cmd: seq<string>, result: AiderResult)
    ensures IsCommandFor(cmd, aiderPath, tempDir, req)
    ensures result == Response(launch)
  {
    cmd := BuildCommand(aiderPath, tempDir, req);
    match launch {
      case StartFailed(reason) =>
        result := AiderResult("", StartFailureLine(reason), None);
      case Started(script) =>
        var stdoutLines, stderrLines := DrainOutput(script);
        result := AssembleResult(stdoutLines, stderrLines);
    }
  }

  /**
   * The `error` entry of a started child's result: present exactly when its
   * stdout holds the troubleshooting link, and then "something went wrong",
   * followed by ", AI key or model not found" exactly when the stdout also
   * names the models-and-keys page.
   */
  lemma StartedErrorRules(script: seq<ReadStep>)
    ensures var r := Response(Started(script));
      && (r.error.Some? <==> Contains(r.rawStdout, TroubleshootingLink))
      && (r.error.Some? ==>
            r.error.value == "something went wrong" + (if Contains(r.rawStdout, ModelsAndKeysPage) then ", AI key or model not found" else ""))
  {
    var r := Response(Started(script));
    if Contains(r.rawStdout, TroubleshootingLink) && Contains(r.rawStdout, ModelsAndKeysPage) {
      KeyOrModelMessage();
    } else if Contains(r.rawStdout, TroubleshootingLink) {
      assert "something went wrong" + "" == "something went wrong";
    }
  }

  /**
   * A start failure yields empty stdout, the failure line on stderr and no
   * `error` entry, whatever the reason says.
   */
  lemma StartFailureResult(reason: string)
    ensures Response(StartFailed(reason))
         == AiderResult("", "Error: Failed to start aider process: " + reason + "\n", None)
  {
  }

  /** The raw texts of a started child are the concatenations of the chunks the loop consumed. */
  lemma StartedResult(script: seq<ReadStep>)
    ensures var r := Response(Started(script));
      r.rawStdout == StdoutText(ConsumedSteps(script))
      && r.rawStderr == StderrText(ConsumedSteps(script))
      && r.error == Classify(r.rawStdout)
  {
    DrainIsConcatenation(script);
  }

  /**
   * After an exception the result keeps what was captured before it, and
   * the partial stdout is still classified.
   */
  lemma ExceptionResult(prefix: seq<ReadStep>, kept: string, reason: string, later: seq<ReadStep>)
    requires forall j :: 0 <= j < |prefix| ==> !Stops(prefix[j])
    ensures var out := StdoutText(prefix) + kept;
      Response(Started(prefix + [Raised(kept, reason)] + later))
      == AiderResult(out, StderrText(prefix) + ReadFailureLine(reason), Classify(out))
  {
    DrainStopsAtException(prefix, kept, reason, later);
  }

  /**
   * Once the troubleshooting link has been read on stdout, the result has an
   * `error` entry, whatever the child does afterwards.
   */
  lemma EarlyLinkMeansError(prefix: seq<ReadStep>, later: seq<ReadStep>)
    requires forall j :: 0 <= j < |prefix| ==> !Stops(prefix[j])
    requires Contains(StdoutText(prefix), TroubleshootingLink)
    ensures Response(Started(prefix + later)).error.Some?
  {
    DrainAfterPrefix(prefix, later);
    ClassificationPersists(StdoutText(prefix), Drain(later).out);
  }

  /** Two scripts that agree step by step on stdout and on where the loop stops. */
  predicate SameStdoutSteps(s1: seq<ReadStep>, s2: seq<ReadStep>)
  {
    |s1| == |s2|
    && forall j :: 0 <= j < |s1| ==>
         StdoutChunk(s1[j]) == StdoutChunk(s2[j]) && Stops(s1[j]) == Stops(s2[j]) && s1[j].Raised? == s2[j].Raised?
  }

  /**
   * Only stdout is classified: scripts that differ only in what stderr
   * carries (without changing where the loop stops) get the same `error`
   * entry, however stderr mentions the troubleshooting link.
   */
  lemma {:induction false} StderrIsNotClassified(s1: seq<ReadStep>, s2: seq<ReadStep>)
    requires SameStdoutSteps(s1, s2)
    ensures Response(Started(s1)).rawStdout == Response(Started(s2)).rawStdout
    ensures Response(Started(s1)).error == Response(Started(s2)).error
    decreases |s1|
  {
    if s1 != [] {
      assert SameStdoutSteps(s1[1..], s2[1..]) by {
        forall j | 0 <= j < |s1[1..]|
          ensures StdoutChunk(s1[1..][j]) == StdoutChunk(s2[1..][j])
            && Stops(s1[1..][j]) == Stops(s2[1..][j]) && s1[1..][j].Raised? == s2[1..][j].Raised?
        {
          assert s1[1..][j] == s1[j + 1] && s2[1..][j] == s2[j + 1];
        }
      }
      StderrIsNotClassified(s1[1..], s2[1..]);
      assert StdoutChunk(s1[0]) == StdoutChunk(s2[0]) && Stops(s1[0]) == Stops(s2[0]);
    }
  }
}
