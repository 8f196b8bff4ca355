# aider-api request handling, modelled in Dafny

The aider API service takes a request holding an instruction (`message`), an
optional mapping of file names to contents, three booleans (`auto_commits`,
`dirty_commits`, `dry_run`) and a working directory. It writes the files to a
temporary directory. It runs the `aider` executable with an argument vector
built from the request. It drains the child's stdout and stderr until both
are exhausted. It then returns `raw-stdout`, `raw-stderr` and, when the
captured stdout shows a known failure, an `error` entry. This project models
that function, `collect_aider_output` in `aider_api.py`, and proves what it
promises.

Modules (one file each):

- `Wrappers` (`wrappers.dfy`): the `Option` type, standing for Python's `None`-or-value.
- `Text` (`text.dfy`): the Python string operations the service relies on.
  `Contains` is `t in s`, `Concat` is `"".join`, and `SplitLinesKeepEnds` is
  `str.splitlines(True)`, with every line boundary Python recognises.
- `Shlex` (`shlex.dfy`): `shlex.quote`, as Python documents it. Its partner
  is `ShellWord`, the quote removal a POSIX shell performs on one word.
- `PosixPath` (`posixpath.dfy`): `os.path.join` on POSIX for two components.
- `AiderApi` (`aider_api.dfy`): the request record, the argument vector, the
  drain loop, the classifier, the start-failure result and the whole call.

How the child process is represented: a `Launch` value says the child either
fails to start (with the exception's text) or starts. A started child's
pipes yield a finite script of `ReadStep`s, one per loop iteration. A step is
either the decoded texts of both reads, or an exception. An exception carries
its text and any stdout text that was added before it was raised (the case
of a failure while decoding stderr). Reads past the end of the script return
end of stream on both pipes. Each `read()` call without a size reads to end
of stream, so a normal run of the program is one step carrying each
channel's whole output followed by one step with both reads empty; only an
exception ends the loop sooner. The script allows any chunking, and that run
is one of the scripts.

Behaviour of the code worth noting, which the model keeps as written:

- An empty `files` mapping is accepted and treated like an absent one,
  although a test in the repository expects such a request to be rejected
  (`tests/test_api.py:19-27`).
- File names are joined to the temporary directory without any check. An
  absolute name replaces the directory, and a relative name holding `..`
  components (such as `../../etc/x`) names a file outside it; such files are
  written and passed to aider all the same (`FilePathPlacement`).
- The message is passed through `shlex.quote` and then as a plain argument,
  with no shell involved. So aider receives the quoting characters themselves
  whenever the message is empty or holds a character outside
  `[A-Za-z0-9_@%+=:,./-]` (`MessageArgumentIsQuoted`).
- This version of the service has no streaming mode. It returns one
  aggregated dictionary.

## Model

| member | source | states |
|---|---|---|
| `AiderApi.BuildCommand` | aider_api.py:51-68 | The vector is the executable, `--message`, the quoted message, then `--stream`/`--no-stream` (by `not dry_run`), then `--auto-commits`/`--no-auto-commits`, `--dirty-commits`/`--no-dirty-commits` and `--dry-run`/`--no-dry-run`, then `--no-show-model-warnings` and `--yes`. When the mapping is non-empty, one joined path per key follows, in mapping order (`IsCommandFor`). |
| `AiderApi.CommandIsDetermined` | aider_api.py:51-68 | That description fixes the vector completely: two vectors meeting it for the same request are equal. |
| `AiderApi.DefaultRequestCommand` | aider_api.py:24-30 | A request giving only a message gets exactly the nine fixed arguments, with `--stream --auto-commits --dirty-commits --no-dry-run`, and no file paths. |
| `AiderApi.EmptyFilesLikeAbsent` | aider_api.py:67-68 | An empty mapping yields the same vector as an absent one: the nine fixed arguments only. |
| `AiderApi.MessageArgumentIsQuoted` | aider_api.py:53 | The third argument is the shell-quoted message, which a shell's quote removal would turn back into the message. It equals the message exactly when the message is non-empty and all safe characters; otherwise it starts and ends with a single quote. |
| `AiderApi.FilePathPlacement` | aider_api.py:68 | Each file argument is the temporary directory joined with the name. An absolute name replaces the directory. For a relative name, the joined text starts with the directory; `..` components are kept as written, so that text may name a file outside the directory. |
| `Shlex.Quote` | aider_api.py:53 | `shlex.quote`: the empty string becomes `''`; a string of safe characters (`[A-Za-z0-9_@%+=:,./-]`) is unchanged; any other string is wrapped in single quotes, each single quote in it written as `'"'"'`. Its properties are `QuoteRoundTrip` and `QuoteChanges`. |
| `Shlex.QuoteRoundTrip` | aider_api.py:53 | Quote removal by a POSIX shell undoes `shlex.quote` for every string. |
| `Shlex.QuoteChanges` | aider_api.py:53 | `shlex.quote` changes exactly the strings that are empty or hold an unsafe character, and wraps those in single quotes. |
| `PosixPath.Join` | aider_api.py:68 | An absolute second component is the result. Otherwise the result starts with the first component, ends with the second, and has one `/` between them unless the first is empty or ends in `/`. |
| `Text.ContainsIff` | aider_api.py:137 | The substring test holds exactly when some index of the text starts an occurrence of the pattern. |
| `Text.ContainsExtends` | aider_api.py:141 | An occurrence in a text is still an occurrence after anything is appended or prepended. |
| `Text.FirstLineLength` | aider_api.py:104 | The first line ends at the first line boundary (with `\r\n` as one boundary) or at the end of the text, and is never empty. |
| `Text.SplitLinesKeepEnds` | aider_api.py:104-106 | `splitlines(True)` gives no lines exactly for the empty text, and no line it gives is empty. |
| `Text.SplitLinesLossless` | aider_api.py:104-106 | Joining the lines of `splitlines(True)` gives back the text. |
| `Text.ConcatAppend` | aider_api.py:132-133 | Joining two lists in sequence is joining each list and concatenating the two results. |
| `AiderApi.Drain` | aider_api.py:95-114 | The captured texts of a script: the end of the script, or a step with both reads empty, ends with nothing more; an exception ends with the stdout text kept before it and the failure line on stderr; any other step adds its stdout and stderr text and the loop goes on. Its properties are `DrainIsConcatenation` and the `DrainStops` lemmas. |
| `AiderApi.ExtendWithChunk` | aider_api.py:103-106 | Extending a line list with the lines of a chunk (`splitlines(True)`), or leaving it alone when the chunk is empty, adds exactly that chunk's text to what the list joins to. |
| `AiderApi.DrainOutput` | aider_api.py:92-114 | The loop's line lists, once joined, are exactly the captured stdout and stderr that `Drain` describes for the script. |
| `AiderApi.FirstStop` | aider_api.py:108-114 | The first step that ends the loop (an exception, or both reads empty); every earlier step continues it. |
| `AiderApi.DrainAfterPrefix` | aider_api.py:95-109 | Steps that do not stop the loop add their chunks in order, each channel to its own buffer. A step with only one empty read is such a step. |
| `AiderApi.DrainIsConcatenation` | aider_api.py:95-133 | Each captured text is the in-order concatenation of that channel's chunks over the consumed steps: all steps up to and including the first stopping step. Nothing after that is read. |
| `AiderApi.DrainStopsAtEndOfStream` | aider_api.py:108-109 | The first iteration in which both reads are empty ends the loop. What came before is kept, and later steps are never read. |
| `AiderApi.DrainStopsAtException` | aider_api.py:111-114 | An exception ends the loop. Stderr gets `Error: Failed to process output: <reason>\n` after the text already captured, and stdout keeps its text. |
| `AiderApi.Classify` | aider_api.py:137-142 | The `error` entry for a stdout text: none without the troubleshooting link; with it, "something went wrong", extended by ", AI key or model not found" when `models-and-keys.html` also appears. Its properties are `StartedErrorRules`, `KeyPageAloneIsNoError` and `ClassificationPersists`. |
| `AiderApi.AssembleResult` | aider_api.py:131-142 | The result holds the joined stdout and stderr. Its `error` entry is the classification of the joined stdout, built as the source builds it: first the generic message, then the appended suffix. |
| `AiderApi.StartedErrorRules` | aider_api.py:137-142 | A started child's result has an `error` entry exactly when its stdout holds the troubleshooting link. The entry is "something went wrong", followed by ", AI key or model not found" exactly when the stdout also names `models-and-keys.html`. |
| `AiderApi.KeyPageAloneIsNoError` | aider_api.py:137-142 | Without the troubleshooting link there is no error, even when `models-and-keys.html` appears. |
| `AiderApi.StderrIsNotClassified` | aider_api.py:137-142 | Only stdout is classified. Two scripts that differ only in stderr text, without changing where the loop stops, get the same stdout and the same `error` entry. |
| `AiderApi.ClassificationPersists` | aider_api.py:137-142 | Later output never clears the error, and never turns the key-or-model error back into the generic one. |
| `AiderApi.EarlyLinkMeansError` | aider_api.py:137-138 | Once the troubleshooting link has been read on stdout, the result has an `error` entry, whatever the child does afterwards. |
| `AiderApi.ExceptionResult` | aider_api.py:111-142 | After an exception, the result keeps the stdout and stderr read so far, with the error line appended to stderr. The partial stdout is still classified. |
| `AiderApi.StartedResult` | aider_api.py:131-134 | A started child's raw texts are the channel concatenations over the consumed steps, and its `error` entry is their classification. |
| `AiderApi.StartFailureResult` | aider_api.py:83-89 | When the child cannot be started, the result is empty stdout, `Error: Failed to start aider process: <reason>\n` on stderr, and no `error` entry, whatever the reason says: nothing is drained or classified. |
| `AiderApi.Response` | aider_api.py:83-144 | The dictionary returned for a launch: the start-failure result when the child does not start, otherwise the drained texts with the classification of the stdout. Its properties are `StartFailureResult`, `StartedResult` and `ExceptionResult`. |
| `AiderApi.CollectAiderOutput` | aider_api.py:32-144 | The call builds the vector described above, and returns the start-failure result or the drained and classified result, as `Response` defines. |

## Left out

- The HTTP layer: the FastAPI application, the `/run-aider` endpoint and its mapping of exceptions to status 500 (aider_api.py:146-159), and the command-line start of the server (aider_api.py:161-171). These are framework plumbing.
- Logging configuration and every logging call (aider_api.py:14-20 and throughout). These only have side effects.
- The temporary directory, including writing the files into it and removing it afterwards (aider_api.py:38-44). It is filesystem work, so the directory's path is a parameter. A failed write (for example a name such as `src/app.py` whose directory does not exist, at aider_api.py:43) makes the call raise before the command is built, so the endpoint answers with status 500; `CollectAiderOutput` describes only calls in which every write succeeded.
- Locating the executable from the running interpreter (aider_api.py:47-48). It is an environment query, so the path is a parameter.
- Starting the process with its working directory and environment (aider_api.py:76-82). It becomes the `Launch` value.
- The concurrency of reading both pipes together (aider_api.py:98-101). Each iteration's two results are one scripted step.
- Decoding bytes to text (aider_api.py:104,106). Steps carry decoded text. A decoding failure is an exception step.
- Waiting for the process and its ignored exit code (aider_api.py:117).
- The commented-out model option (aider_api.py:63-64) and the commented-out read-back of modified files (aider_api.py:120-127).
- The interactive client `chat.py`. It is a terminal program: line history, HTTP requests and printing.
- AiderApi.DrainOutput: the script is finite. Reads past its end are taken to report end of stream, as a closed pipe does. A child whose pipes never close is not represented.
- Shlex.QuoteRoundTrip: `ShellWord` covers only the words `shlex.quote` produces (safe characters, single-quoted spans, double-quoted spans without `\`, `$` or backquotes). It returns `None` for any other word.
