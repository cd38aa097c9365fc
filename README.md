# slurm-manager in Dafny

A model of `SlurmManager`, a small Python class that drives the Slurm
workload manager through its command-line tools:

- `submit_script` writes a batch script to a temporary file and submits it with `sbatch`. The script has a shebang, three `#SBATCH` directives, an optional preamble, and a `python - <<EOF` here-document that holds the Python payload.
- `count_jobs` and `count_jobs_by_name` run `squeue` with job-id-only output and count the lines of its stdout with `str.splitlines()`.
- `view_queue` and `cancel_jobs_by_name` run `squeue` and `scancel` and return their stdout.
- `is_slurm_available` runs `sbatch --version` and checks its stdout for `"sbatch"`.

The class has no fields, so its operations are members of the module `SlurmManager`. Each external command is a function parameter. A `Runner` maps an argument vector to an `Outcome`: the call raised, or it completed with an exit status, stdout and stderr. The sbatch runner also receives the text of the script file. The model does not run anything.

Files:

- `pystr.dfy` (module `PyStr`): the Python string behaviour the class relies on. This covers `None` and truthiness, `str.splitlines()` with all of Python's line boundaries, and `needle in hay`.
- `process.dfy` (module `Process`): the outcome of `subprocess.run`, the `check=True` rule, and the `Result` that an operation returns when the call raises.
- `slurm_manager.dfy` (module `SlurmManager`): script rendering, the temporary file as a class with a `Write` method, the command lines, the counting, and the probe.

Facts about the code that the model keeps:

- The script holds exactly three directives: job-name, output and error.
- When `sbatch` is missing, nothing runs the payload in its place: `submit_script` propagates the error.
- `is_slurm_available` runs `sbatch --version` on every call; nothing caches its answer.
- The job count is the number of lines `splitlines` yields, so empty lines inside squeue's stdout count too.

## Model

| member | source | states |
|---|---|---|
| `SlurmManager.TempScript.constructor` | SlurmManager.py:18-20 | the temporary file starts empty, at the path the system chose |
| `SlurmManager.TempScript.Write` | SlurmManager.py:21 | a write appends its text to the file and changes nothing else |
| `SlurmManager.WriteScript` | SlurmManager.py:21-31 | after the writes of `submit_script`, the file holds its old text followed by `Render(python_script, preamble, job_name)` |
| `SlurmManager.SubmitScript` | SlurmManager.py:9-40 | sbatch runs as `["sbatch", path]` while the file holds the rendered script, with `preamble` defaulting to `None` and `job_name` to `"python_job"`; the result is sbatch's stdout whatever its exit status; a raising call propagates |
| `SlurmManager.Render` | SlurmManager.py:9-31 | with `preamble` defaulting to `None` and `job_name` to `"python_job"`, the script starts with the `#!/bin/bash` shebang and ends with the `EOF` line and its newline |
| `SlurmManager.JobNameBreakInjectsLine` | SlurmManager.py:22 | a job name `x + "\n" + y` is written verbatim, so `y` becomes a script line of its own between the job-name and output directives |
| `SlurmManager.RenderLines` | SlurmManager.py:21-31 | the script's lines are the shebang, then job-name (with the name verbatim), output and error directives, then the preamble's lines exactly when the preamble is truthy, then a blank line, the here-document opener, the payload's lines, and `EOF` as the last line |
| `SlurmManager.HeaderLines` | SlurmManager.py:21-24 | the first four lines are `#!/bin/bash` and the job-name, output and error directives; the output and error directives are fixed whatever the inputs |
| `SlurmManager.DefaultJobNameDirective` | SlurmManager.py:9 | with the default job name, the second line names the job `python_job` |
| `SlurmManager.PreambleAndTailLines` | SlurmManager.py:27-31 | `None` and `""` leave the preamble out; a truthy preamble contributes its own lines before the blank line |
| `SlurmManager.TailLines` | SlurmManager.py:30-31 | the script ends with a blank line, the opener, the payload's lines and `EOF` |
| `SlurmManager.HeredocOfRender` | SlurmManager.py:27-31 | the script's raw lines between the opener and the first `EOF` line are everything before the first `EOF` line among the payload's lines followed by the appended delimiter |
| `SlurmManager.PayloadRecovered` | SlurmManager.py:31 | if no payload line is `EOF`, the script's raw lines between the opener and the first `EOF` line are exactly the payload's lines |
| `SlurmManager.PayloadTruncatedAtEofLine` | SlurmManager.py:31 | a payload line `EOF` ends the raw here-document lines early: only the payload lines before it lie between the opener and the first `EOF` line |
| `SlurmManager.CountJobsArgv` | SlurmManager.py:49-50 | the argv is six elements with `state` at index 3; squeue reads it as a state filter with no header and the id-only format |
| `SlurmManager.CountJobsByNameArgv` | SlurmManager.py:84-86 | the argv always starts with the six name-selecting elements; it has 8 elements, ending with `-t` and the state, exactly when the state is truthy, and 6 otherwise; squeue reads it as those filters |
| `SlurmManager.CountJobs` | SlurmManager.py:42-53 | with `state` defaulting to `"RUNNING"`, the count is the number of lines `splitlines` finds in squeue's stdout, whatever the exit status; a raising call propagates |
| `SlurmManager.CountJobsByName` | SlurmManager.py:76-89 | with `state` defaulting to `None`, builds the argv in place and runs it; the count is as for `count_jobs` |
| `SlurmManager.CountJobsCountsPrintedIds` | SlurmManager.py:49-53 | when squeue prints one id per line, the count is the number of ids |
| `SlurmManager.CountJobsCountsTerminators` | SlurmManager.py:52-53 | the count is the number of line terminators, plus one for an unterminated last line |
| `SlurmManager.ViewQueue` | SlurmManager.py:67-74 | runs bare `squeue` and returns its stdout whatever the exit status |
| `SlurmManager.CancelJobsByName` | SlurmManager.py:55-65 | runs `scancel --name job_name` with the name as one element and returns its stdout |
| `SlurmManager.IsSlurmAvailable` | SlurmManager.py:91-103 | true exactly when `sbatch --version` completes with exit status 0 and `"sbatch"` occurs in its stdout; a raising call or a non-zero exit status gives false |
| `Process.Checked` | SlurmManager.py:98-100 | `check=True` turns a non-zero exit status into a raised error and leaves a zero-status outcome unchanged |
| `Process.StdoutOf` | SlurmManager.py:37-40 | a completed call yields its stdout whatever its exit status; a raising call yields the failure |
| `PyStr.IsTruthy` | SlurmManager.py:27 | an optional string is truthy exactly when it is neither `None` nor `""` |
| `PyStr.SplitLines` | SlurmManager.py:52 | no line holds a line boundary; there are no more lines than characters; there are no lines exactly when the text is empty |
| `PyStr.LineCount` | SlurmManager.py:52-53 | the number of lines equals the number of terminators (`\r\n` counting once), plus one for an unterminated last line |
| `PyStr.TrailingBreak` | SlurmManager.py:88-89 | any of Python's ten line boundaries after an unterminated last line adds no line and changes none, and neither does a `\n` after a final lone `\r` (the two form one `\r\n`) |
| `PyStr.SplitLinesAppend` | SlurmManager.py:88 | after a text ending in `\n`, the lines of the concatenation are the lines of each part |
| `PyStr.SplitTerminated` | SlurmManager.py:88-89 | items written one per line, each followed by `\n`, split back into exactly those items, including empty ones |
| `PyStr.SplitThreeIds` | SlurmManager.py:52-53 | `"123\n456\n789\n"` splits into three lines |
| `PyStr.SplitWithEmptyLine` | SlurmManager.py:88-89 | `"a\n\nb"` splits into three lines, the middle one empty |
| `PyStr.Contains` | SlurmManager.py:101 | the empty needle is in every text; a needle found is no longer than the text |
| `PyStr.ContainsIffOccurs` | SlurmManager.py:101 | `needle in hay` holds exactly when the needle occurs at some index of the hay |

## Left out

- Running the commands: `sbatch`, `squeue` and `scancel` are runner parameters. Their behaviour is not modelled.
- The temporary file's lifecycle is not modelled. This covers how it is created, the `.sh` suffix, `flush`, and its deletion on exit. The model takes the path as a parameter.
- The kind of exception that propagates is not modelled. `Failed` stands for any exception that `subprocess.run` raises.
- Universal-newline translation is not modelled. With `text=True`, Python rewrites `\r\n` and `\r` to `\n` before the code sees stdout. The outcome's stdout is the text after that translation.
- `count_jobs(None)` is not modelled. In the source, a `None` state inside the argv makes `subprocess.run` raise a TypeError. The model's state is always a string.
- Arguments that are not strings are not modelled. The f-strings would format them with `str()`.
- `SlurmManager.ParseSqueue` is not squeue. It gives only the reading of the options `-h`, `-t`, `-n` and `-o` used here: each value is the next element, taken whole.
- `SlurmManager.HeredocBody` splits the script into lines with `splitlines`. That matches the shell's own line reading only when the text has no line boundary other than `\n`.
- `SlurmManager.PayloadRecovered`, `SlurmManager.PayloadTruncatedAtEofLine` and `SlurmManager.HeredocOfRender`: these require that a truthy preamble has no line equal to the opener. Such a line would open the here-document earlier.
- `SlurmManager.HeredocOfRender`, `SlurmManager.PayloadRecovered` and `SlurmManager.PayloadTruncatedAtEofLine` describe the script's raw lines between the opener and the first `EOF` line, not the text Python reads. The delimiter `EOF` is unquoted, so bash joins a line ending in `\` with the next one and expands `$`, backquotes and `\` in the body. For instance, a payload `print(1) \` is joined with the `EOF` line, and the here-document does not end there.
- `SlurmManager.RenderLines`, `SlurmManager.HeaderLines`, `SlurmManager.HeredocOfRender`, `SlurmManager.PayloadRecovered` and `SlurmManager.PayloadTruncatedAtEofLine` require a job name without line boundaries. The source writes any name verbatim; `SlurmManager.JobNameBreakInjectsLine` shows that a name holding `\n` injects a script line of its own among the directives.
