/** The `SlurmManager` class: it renders a Slurm batch script around a
    Python payload and submits it with sbatch, counts jobs from squeue's
    output, cancels jobs by name with scancel and probes whether sbatch is
    installed. The class has no fields, so its operations are modelled as
    module members; every external command is a `Runner` parameter. */
module SlurmManager {
  import opened PyStr
  import opened Process

  /** Default of `submit_script`'s `job_name`. */
  const DefaultJobName := "python_job"
  /** Default of `count_jobs`'s `state`. */
  const DefaultState := "RUNNING"

  // ---------------------------------------------------------------------
  // The batch script written by submit_script
  // ---------------------------------------------------------------------

  /** The fixed lines of the script, without their newlines. */
  const ShebangLine := "#!/bin/bash"
  const JobNamePrefix := "#SBATCH --job-name="
  const OutputLine := "#SBATCH --output=slurm_%j.out"
  const ErrorLine := "#SBATCH --error=slurm_%j.err"

  const Shebang := ShebangLine + "\n"
  const OutputDirective := OutputLine + "\n"
  const ErrorDirective := ErrorLine + "\n"
  /** The line that starts the here-document feeding the payload to Python. */
  const HeredocOpener := "python - <<EOF"
  /** The line that ends the here-document. */
  const HeredocDelimiter := "EOF"

  function JobNameDirective(jobName: string): string {
    JobNamePrefix + jobName + "\n"
  }

  /** The preamble and its newline when the preamble is truthy, else nothing. */
  function PreambleBlock(preamble: Option<string>): string {
    if IsTruthy(preamble) then preamble.value + "\n" else ""
  }

  function HeredocBlock(pythonScript: string): string {
    HeredocOpener + "\n" + pythonScript + "\n" + HeredocDelimiter + "\n"
  }

  /** The text `submit_script` writes to its temporary file, with the
      same defaults: no preamble and the job name "python_job". It starts
      with the shebang line and its last line is the delimiter. */
  function Render(pythonScript: string, preamble: Option<string> := None,
                  jobName: string := DefaultJobName): (script: string)
    ensures Shebang <= script
    ensures |script| >= 4 && script[|script| - 4..] == HeredocDelimiter + "\n"
  {
    Shebang + JobNameDirective(jobName) + OutputDirective + ErrorDirective +
    PreambleBlock(preamble) + "\n" + HeredocBlock(pythonScript)
  }

  /** The temporary `.sh` file: its name, chosen by the operating system,
      and the text written to it so far. */
  class TempScript {
    const path: string
    var contents: string

    constructor (path: string)
      ensures this.path == path && contents == ""
    {
      this.path := path;
      contents := "";
    }

    /** `tmpfile.write(text)` */
    method Write(text: string)
      modifies this
      ensures contents == old(contents) + text
    {
      contents := contents + text;
    }
  }

  /** The writes of `submit_script`, in order: after them the file holds
      what it held before followed by the rendered script. */
  method WriteScript(f: TempScript, pythonScript: string, preamble: Option<string>, jobName: string)
    modifies f
    ensures f.contents == old(f.contents) + Render(pythonScript, preamble, jobName)
  {
    ghost var start := f.contents;
    f.Write(Shebang);
    ghost var written := Shebang;
    f.Write(JobNameDirective(jobName));
    ConcatAssoc(start, written, JobNameDirective(jobName));
    written := written + JobNameDirective(jobName);
    assert f.contents == start + written;
    f.Write(OutputDirective);
    ConcatAssoc(start, written, OutputDirective);
    written := written + OutputDirective;
    assert f.contents == start + written;
    f.Write(ErrorDirective);
    ConcatAssoc(start, written, ErrorDirective);
    written := written + ErrorDirective;
    assert f.contents == start + written;
    if IsTruthy(preamble) {
      f.Write(preamble.value + "\n");
    }
    ConcatAssoc(start, written, PreambleBlock(preamble));
    written := written + PreambleBlock(preamble);
    assert f.contents == start + written;
    f.Write("\n");
    ConcatAssoc(start, written, "\n");
    written := written + "\n";
    assert f.contents == start + written;
    f.Write(HeredocBlock(pythonScript));
    ConcatAssoc(start, written, HeredocBlock(pythonScript));
  }

  /** Runs sbatch; besides argv it is given the text of the file its
      argument names at the moment it runs. */
  type SbatchRunner = (seq<string>, string) -> Outcome

  /** `submit_script`: writes the script to a temporary file at `path` and
      returns sbatch's stdout, whatever its exit status; if sbatch cannot be
      started the exception propagates. `preamble` and `jobName` default
      as in `submit_script`. */
  method SubmitScript(path: string, sbatch: SbatchRunner, pythonScript: string,
                      preamble: Option<string> := None, jobName: string := DefaultJobName)
    returns (r: Result<string>)
    ensures var o := sbatch(["sbatch", path], Render(pythonScript, preamble, jobName));
      (r.Failed? <==> o.Raised?) && (o.Completed? ==> r == Ok(o.stdout))
  {
    var tmpfile := new TempScript(path);
    WriteScript(tmpfile, pythonScript, preamble, jobName);
    assert tmpfile.contents == Render(pythonScript, preamble, jobName);
    var result := sbatch(["sbatch", tmpfile.path], tmpfile.contents);
    r := StdoutOf(result);
  }

  /** The shebang and the three directives as lines, in the order the
      script writes them. */
  function DirectiveLines(jobName: string): seq<string> {
    [ShebangLine, JobNamePrefix + jobName,
     OutputLine, ErrorLine]
  }

  /** The script read line by line: the shebang, the three directives in
      the order job-name, output, error with `jobName` verbatim, the
      preamble's lines exactly when the preamble is truthy, a blank line,
      the here-document opener, the payload's lines and the delimiter as
      the last line. */
  lemma RenderLines(pythonScript: string, preamble: Option<string>, jobName: string)
    requires NoBreaks(jobName)
    ensures SplitLines(Render(pythonScript, preamble, jobName)) ==
      DirectiveLines(jobName) +
      (if IsTruthy(preamble) then SplitLines(preamble.value + "\n") else []) +
      ["", HeredocOpener] + SplitLines(pythonScript + "\n") + [HeredocDelimiter]
  {
    var headerLines := DirectiveLines(jobName);
    var preLines := if IsTruthy(preamble) then SplitLines(preamble.value + "\n") else [];
    var opening, body, closing := ["", HeredocOpener], SplitLines(pythonScript + "\n"), [HeredocDelimiter];
    var rest := PreambleBlock(preamble) + ("\n" + HeredocBlock(pythonScript));
    RenderGrouped(pythonScript, preamble, jobName);
    HeaderLines(jobName, rest);
    PreambleAndTailLines(pythonScript, preamble);
    assert SplitLines(Render(pythonScript, preamble, jobName)) ==
      headerLines + (preLines + (opening + body + closing));
    ConcatAssoc(headerLines, preLines, opening + body + closing);
    ConcatAssoc(headerLines + preLines, opening + body, closing);
    ConcatAssoc(headerLines + preLines, opening, body);
  }

  /** The rendered script as the fixed header followed by the rest. */
  lemma RenderGrouped(pythonScript: string, preamble: Option<string>, jobName: string)
    ensures Render(pythonScript, preamble, jobName) ==
      Shebang + JobNameDirective(jobName) + OutputDirective + ErrorDirective +
      (PreambleBlock(preamble) + ("\n" + HeredocBlock(pythonScript)))
  {
    var header := Shebang + JobNameDirective(jobName) + OutputDirective + ErrorDirective;
    var pre := PreambleBlock(preamble);
    ConcatAssoc(header, pre, "\n");
    ConcatAssoc(header + pre, "\n", HeredocBlock(pythonScript));
    ConcatAssoc(header, pre + "\n", HeredocBlock(pythonScript));
    ConcatAssoc(pre, "\n", HeredocBlock(pythonScript));
  }

  lemma PreambleAndTailLines(pythonScript: string, preamble: Option<string>)
    ensures SplitLines(PreambleBlock(preamble) + ("\n" + HeredocBlock(pythonScript))) ==
      (if IsTruthy(preamble) then SplitLines(preamble.value + "\n") else []) +
      (["", HeredocOpener] + SplitLines(pythonScript + "\n") + [HeredocDelimiter])
  {
    var pre := PreambleBlock(preamble);
    var tail := "\n" + HeredocBlock(pythonScript);
    TailLines(pythonScript);
    if IsTruthy(preamble) {
      assert pre[|pre| - 1] == '\n';
      SplitLinesAppend(pre, tail);
    } else {
      assert pre + tail == tail;
    }
  }

  /** No fixed line of the script holds a line boundary. */
  lemma FixedLinesHaveNoBreaks()
    ensures NoBreaks(ShebangLine) && NoBreaks(JobNamePrefix)
    ensures NoBreaks(OutputLine) && NoBreaks(ErrorLine)
    ensures NoBreaks("") && NoBreaks(HeredocOpener) && NoBreaks(HeredocDelimiter)
  {
    ShebangAndPrefixHaveNoBreaks();
    FixedDirectivesHaveNoBreaks();
    HeredocLinesHaveNoBreaks();
  }

  lemma ShebangAndPrefixHaveNoBreaks()
    ensures NoBreaks(ShebangLine) && NoBreaks(JobNamePrefix)
  {
    PrintableHasNoBreaks(ShebangLine);
    PrintableHasNoBreaks(JobNamePrefix);
  }

  lemma FixedDirectivesHaveNoBreaks()
    ensures NoBreaks(OutputLine) && NoBreaks(ErrorLine)
  {
    PrintableHasNoBreaks(OutputLine);
    PrintableHasNoBreaks(ErrorLine);
  }

  lemma HeredocLinesHaveNoBreaks()
    ensures NoBreaks("") && NoBreaks(HeredocOpener) && NoBreaks(HeredocDelimiter)
  {
    PrintableHasNoBreaks(HeredocOpener);
    PrintableHasNoBreaks(HeredocDelimiter);
  }

  /** With the default job name the second line of the script names the
      job "python_job". */
  lemma DefaultJobNameDirective(pythonScript: string, preamble: Option<string>)
    ensures |SplitLines(Render(pythonScript, preamble))| > 1
    ensures SplitLines(Render(pythonScript, preamble))[1] == JobNamePrefix + "python_job"
  {
    PrintableHasNoBreaks(DefaultJobName);
    var rest := PreambleBlock(preamble) + ("\n" + HeredocBlock(pythonScript));
    RenderGrouped(pythonScript, preamble, DefaultJobName);
    HeaderLines(DefaultJobName, rest);
    assert DirectiveLines(DefaultJobName)[1] == JobNamePrefix + "python_job";
  }

  /** The shebang and the three directives are the first four lines. */
  lemma HeaderLines(jobName: string, rest: string)
    requires NoBreaks(jobName)
    ensures SplitLines(Shebang + JobNameDirective(jobName) + OutputDirective + ErrorDirective + rest) ==
      DirectiveLines(jobName) + SplitLines(rest)
  {
    var l0, l1, l2, l3 := ShebangLine, JobNamePrefix + jobName,
                          OutputLine, ErrorLine;
    FixedLinesHaveNoBreaks();
    assert NoBreaks(l1) by {
      forall i | 0 <= i < |l1| ensures !IsLineBreak(l1[i]) {
        if i >= |JobNamePrefix| {
          assert l1[i] == jobName[i - |JobNamePrefix|];
        }
      }
    }
    var r3 := l3 + "\n" + rest;
    var r2 := l2 + "\n" + r3;
    var r1 := l1 + "\n" + r2;
    var r0 := l0 + "\n" + r1;
    assert Shebang + JobNameDirective(jobName) + OutputDirective + ErrorDirective + rest == r0;
    SplitLinesCons(l3, rest);
    SplitLinesCons(l2, r3);
    SplitLinesCons(l1, r2);
    SplitLinesCons(l0, r1);
    PrependFour(l0, l1, l2, l3, SplitLines(rest));
  }

  /** The job name is written verbatim, so a name holding a line break
      splits its directive: the text after the break becomes a script line
      of its own, placed among the directives (for instance a further
      `#SBATCH` line, or a here-document opener). */
  lemma JobNameBreakInjectsLine(pythonScript: string, preamble: Option<string>, x: string, y: string)
    requires NoBreaks(x) && NoBreaks(y)
    ensures SplitLines(Render(pythonScript, preamble, x + "\n" + y)) ==
      [ShebangLine, JobNamePrefix + x, y,
       OutputLine, ErrorLine] +
      SplitLines(PreambleBlock(preamble) + ("\n" + HeredocBlock(pythonScript)))
  {
    var rest := PreambleBlock(preamble) + ("\n" + HeredocBlock(pythonScript));
    RenderGrouped(pythonScript, preamble, x + "\n" + y);
    HeaderLinesSplitName(x, y, rest);
  }

  /** The five-line variant of `HeaderLines` for a job name `x + "\n" + y`:
      the same steps with one more line split off. It is kept as a lemma of
      its own, not folded into `HeaderLines`, so that each proof stays
      small for the solver. */
  lemma HeaderLinesSplitName(x: string, y: string, rest: string)
    requires NoBreaks(x) && NoBreaks(y)
    ensures SplitLines(Shebang + JobNameDirective(x + "\n" + y) + OutputDirective + ErrorDirective + rest) ==
      [ShebangLine, JobNamePrefix + x, y,
       OutputLine, ErrorLine] + SplitLines(rest)
  {
    var l0, l1, l2, l3 := ShebangLine, JobNamePrefix + x,
                          OutputLine, ErrorLine;
    FixedLinesHaveNoBreaks();
    assert NoBreaks(l1) by {
      forall i | 0 <= i < |l1| ensures !IsLineBreak(l1[i]) {
        if i >= |JobNamePrefix| {
          assert l1[i] == x[i - |JobNamePrefix|];
        }
      }
    }
    var r3 := l3 + "\n" + rest;
    var r2 := l2 + "\n" + r3;
    var ry := y + "\n" + r2;
    var r1 := l1 + "\n" + ry;
    var r0 := l0 + "\n" + r1;
    assert Shebang + JobNameDirective(x + "\n" + y) + OutputDirective + ErrorDirective + rest == r0;
    SplitLinesCons(l3, rest);
    SplitLinesCons(l2, r3);
    SplitLinesCons(y, r2);
    SplitLinesCons(l1, ry);
    SplitLinesCons(l0, r1);
    PrependFive(l0, l1, y, l2, l3, SplitLines(rest));
  }

  /** After the preamble: a blank line, the opener, the payload's lines and
      the delimiter. */
  lemma TailLines(pythonScript: string)
    ensures SplitLines("\n" + HeredocBlock(pythonScript)) ==
      ["", HeredocOpener] + SplitLines(pythonScript + "\n") + [HeredocDelimiter]
  {
    var body := pythonScript + "\n";
    var closing := HeredocDelimiter + "\n";
    var afterOpener := body + closing;
    FixedLinesHaveNoBreaks();
    HeredocBlockGrouped(pythonScript);
    assert "" + "\n" == "\n";
    SplitLinesCons("", HeredocOpener + "\n" + afterOpener);
    SplitLinesCons(HeredocOpener, afterOpener);
    assert body[|body| - 1] == '\n';
    SplitLinesAppend(body, closing);
    SplitOneLine(HeredocDelimiter);
    PrependTwoAppend("", HeredocOpener, SplitLines(body), HeredocDelimiter);
  }

  lemma HeredocBlockGrouped(pythonScript: string)
    ensures HeredocBlock(pythonScript) ==
      HeredocOpener + "\n" + ((pythonScript + "\n") + (HeredocDelimiter + "\n"))
  {
    var opener, body := HeredocOpener + "\n", pythonScript + "\n";
    calc {
      HeredocBlock(pythonScript);
      opener + pythonScript + "\n" + HeredocDelimiter + "\n";
      { ConcatAssoc(opener, pythonScript, "\n"); }
      opener + body + HeredocDelimiter + "\n";
      { ConcatAssoc(opener, body, HeredocDelimiter); }
      opener + (body + HeredocDelimiter) + "\n";
      { ConcatAssoc(opener, body + HeredocDelimiter, "\n"); }
      opener + (body + HeredocDelimiter + "\n");
      { ConcatAssoc(body, HeredocDelimiter, "\n"); }
      opener + (body + (HeredocDelimiter + "\n"));
    }
  }

  /** The here-document's raw lines: the script's lines after the first
      opener line up to the first delimiter line; `None` if there is no
      opener or no delimiter after it. The lines are those of `splitlines`.
      This is the text between the markers as written, before bash's own
      processing of an unquoted here-document (joining a line that ends in
      a backslash with the next, expanding `$`, backquotes and `\`). */
  function HeredocBody(lines: seq<string>): (body: Option<seq<string>>)
    ensures body.Some? ==> HeredocDelimiter !in body.value
    decreases |lines|
  {
    if lines == [] then None
    else if lines[0] == HeredocOpener then BodyBeforeDelimiter(lines[1..])
    else HeredocBody(lines[1..])
  }

  /** The lines before the first delimiter line, `None` if there is none. */
  function BodyBeforeDelimiter(lines: seq<string>): (body: Option<seq<string>>)
    ensures body.Some? ==> HeredocDelimiter !in body.value
    decreases |lines|
  {
    if lines == [] then None
    else if lines[0] == HeredocDelimiter then Some([])
    else
      match BodyBeforeDelimiter(lines[1..])
      case None => None
      case Some(rest) => Some([lines[0]] + rest)
  }

  lemma {:induction false} HeredocBodySkip(before: seq<string>, after: seq<string>)
    requires HeredocOpener !in before
    ensures HeredocBody(before + after) == HeredocBody(after)
    decreases |before|
  {
    if before != [] {
      var lines := before + after;
      assert lines[0] == before[0] && before[0] in before;
      assert lines[1..] == before[1..] + after;
      HeredocBodySkip(before[1..], after);
      assert HeredocBody(lines) == HeredocBody(lines[1..]);
    } else {
      assert before + after == after;
    }
  }

  lemma {:induction false} BodyBeforeFirstDelimiter(body: seq<string>, after: seq<string>)
    requires HeredocDelimiter !in body
    ensures BodyBeforeDelimiter(body + [HeredocDelimiter] + after) == Some(body)
    decreases |body|
  {
    if body != [] {
      assert (body + [HeredocDelimiter] + after)[0] == body[0];
      assert (body + [HeredocDelimiter] + after)[1..] == body[1..] + [HeredocDelimiter] + after;
      BodyBeforeFirstDelimiter(body[1..], after);
      assert body[0] in body;
      assert [body[0]] + body[1..] == body;
    } else {
      assert (body + [HeredocDelimiter] + after)[0] == HeredocDelimiter;
    }
  }

  /** With the opener only where `submit_script` writes it, the raw lines
      between the opener and the first delimiter line are whatever precedes
      the first "EOF" line among the payload's lines followed by the
      delimiter the script appends. */
  lemma HeredocOfRender(pythonScript: string, preamble: Option<string>, jobName: string)
    requires NoBreaks(jobName)
    requires IsTruthy(preamble) ==> HeredocOpener !in SplitLines(preamble.value + "\n")
    ensures HeredocBody(SplitLines(Render(pythonScript, preamble, jobName))) ==
      BodyBeforeDelimiter(SplitLines(pythonScript + "\n") + [HeredocDelimiter])
  {
    var body := SplitLines(pythonScript + "\n");
    var before := LinesBeforeOpener(pythonScript, preamble, jobName);
    HeredocBodySkip(before, [HeredocOpener] + body + [HeredocDelimiter]);
    ConcatAssoc([HeredocOpener], body, [HeredocDelimiter]);
    HeredocBodyAtOpener(body + [HeredocDelimiter]);
  }

  lemma HeredocBodyAtOpener(rest: seq<string>)
    ensures HeredocBody([HeredocOpener] + rest) == BodyBeforeDelimiter(rest)
  {
    assert ([HeredocOpener] + rest)[1..] == rest;
  }

  /** The lines before the here-document opener, none of them an opener. */
  lemma LinesBeforeOpener(pythonScript: string, preamble: Option<string>, jobName: string)
    returns (before: seq<string>)
    requires NoBreaks(jobName)
    requires IsTruthy(preamble) ==> HeredocOpener !in SplitLines(preamble.value + "\n")
    ensures HeredocOpener !in before
    ensures SplitLines(Render(pythonScript, preamble, jobName)) ==
      before + ([HeredocOpener] + SplitLines(pythonScript + "\n") + [HeredocDelimiter])
  {
    RenderLines(pythonScript, preamble, jobName);
    var preLines := if IsTruthy(preamble) then SplitLines(preamble.value + "\n") else [];
    var hp := DirectiveLines(jobName) + preLines;
    before := hp + [""];
    assert HeredocOpener !in preLines;
    OpenerNotInHeader(jobName, preLines);
    SplitAroundOpener(hp, "", HeredocOpener, SplitLines(pythonScript + "\n"), HeredocDelimiter);
  }

  /** When no payload line is "EOF" (and the preamble does not open the
      same here-document), the raw lines between the opener and the first
      delimiter line are exactly the payload's lines. */
  lemma PayloadRecovered(pythonScript: string, preamble: Option<string>, jobName: string)
    requires NoBreaks(jobName)
    requires IsTruthy(preamble) ==> HeredocOpener !in SplitLines(preamble.value + "\n")
    requires HeredocDelimiter !in SplitLines(pythonScript + "\n")
    ensures HeredocBody(SplitLines(Render(pythonScript, preamble, jobName))) ==
      Some(SplitLines(pythonScript + "\n"))
  {
    var body := SplitLines(pythonScript + "\n");
    HeredocOfRender(pythonScript, preamble, jobName);
    BodyBeforeFirstDelimiter(body, []);
    assert body + [HeredocDelimiter] + [] == body + [HeredocDelimiter];
  }

  /** No guard protects the here-document: when payload line `k` is the
      first line "EOF", the raw lines between the opener and the first
      delimiter line stop before it; the payload's later lines fall outside
      the here-document. */
  lemma PayloadTruncatedAtEofLine(pythonScript: string, preamble: Option<string>, jobName: string, k: nat)
    requires NoBreaks(jobName)
    requires IsTruthy(preamble) ==> HeredocOpener !in SplitLines(preamble.value + "\n")
    requires k < |SplitLines(pythonScript + "\n")|
    requires SplitLines(pythonScript + "\n")[k] == HeredocDelimiter
    requires HeredocDelimiter !in SplitLines(pythonScript + "\n")[..k]
    ensures HeredocBody(SplitLines(Render(pythonScript, preamble, jobName))) ==
      Some(SplitLines(pythonScript + "\n")[..k])
    ensures SplitLines(pythonScript + "\n")[..k] != SplitLines(pythonScript + "\n")
  {
    var body := SplitLines(pythonScript + "\n");
    HeredocOfRender(pythonScript, preamble, jobName);
    var after := body[k + 1..] + [HeredocDelimiter];
    SplitAtLine(body, k, [HeredocDelimiter]);
    BodyBeforeFirstDelimiter(body[..k], after);
  }

  lemma OpenerNotInHeader(jobName: string, preLines: seq<string>)
    requires HeredocOpener !in preLines
    ensures HeredocOpener !in DirectiveLines(jobName) + preLines + [""]
  {
    assert (JobNamePrefix + jobName)[0] == '#';
  }

  lemma SplitAtLine<T>(xs: seq<T>, k: nat, tail: seq<T>)
    requires k < |xs|
    ensures xs + tail == xs[..k] + [xs[k]] + (xs[k + 1..] + tail)
  {
    assert xs == xs[..k] + [xs[k]] + xs[k + 1..];
  }

  lemma SplitAroundOpener<T>(hp: seq<T>, blank: T, opener: T, body: seq<T>, delimiter: T)
    ensures hp + [blank, opener] + body + [delimiter] ==
      (hp + [blank]) + ([opener] + body + [delimiter])
  {}

  // ---------------------------------------------------------------------
  // squeue command lines and job counting
  // ---------------------------------------------------------------------

  /** squeue's output format "%i": the job id alone. */
  const JobIdFormat := "%i"

  /** What an squeue command line asks for. */
  datatype SqueueQuery = SqueueQuery(
    noHeader: bool,             // -h
    states: Option<string>,     // -t <states>
    names: Option<string>,      // -n <names>
    format: Option<string>)     // -o <format>

  const Unfiltered := SqueueQuery(false, None, None, None)

  /** How squeue reads the options used here: "-h" stands alone, and "-t",
      "-n" and "-o" each take the next element whole as their value. */
  function ParseSqueueOptions(args: seq<string>, q: SqueueQuery): Option<SqueueQuery>
    decreases |args|
  {
    if args == [] then Some(q)
    else if args[0] == "-h" then ParseSqueueOptions(args[1..], q.(noHeader := true))
    else if |args| < 2 then None
    else if args[0] == "-t" then ParseSqueueOptions(args[2..], q.(states := Some(args[1])))
    else if args[0] == "-n" then ParseSqueueOptions(args[2..], q.(names := Some(args[1])))
    else if args[0] == "-o" then ParseSqueueOptions(args[2..], q.(format := Some(args[1])))
    else None
  }

  function ParseSqueue(argv: seq<string>): Option<SqueueQuery> {
    if argv != [] && argv[0] == "squeue" then ParseSqueueOptions(argv[1..], Unfiltered) else None
  }

  /** The command line of `count_jobs`: `state` at index 3; squeue reads it
      as the state filter, without header, printing one job id per line. */
  function CountJobsArgv(state: string): (argv: seq<string>)
    ensures |argv| == 6 && argv[0] == "squeue" && argv[3] == state
    ensures ParseSqueue(argv) == Some(SqueueQuery(true, Some(state), None, Some(JobIdFormat)))
  {
    var argv := ["squeue", "-h", "-t", state, "-o", JobIdFormat];
    var q1 := Unfiltered.(noHeader := true);
    var q2 := q1.(states := Some(state));
    var q3 := q2.(format := Some(JobIdFormat));
    assert argv[1..][1..] == argv[2..];
    assert argv[2..][2..] == argv[4..];
    assert argv[4..][2..] == [];
    assert ParseSqueueOptions(argv[4..], q2) == Some(q3);
    assert ParseSqueueOptions(argv[2..], q1) == Some(q3);
    argv
  }

  /** The command line of `count_jobs_by_name`: always the six elements
      selecting the name, with "-t" and the state appended exactly when the
      state is truthy; squeue reads it as that name filter and that state
      filter, without header, printing one job id per line. */
  function CountJobsByNameArgv(jobName: string, state: Option<string>): (argv: seq<string>)
    ensures |argv| == (if IsTruthy(state) then 8 else 6)
    ensures argv[..6] == ["squeue", "-h", "-n", jobName, "-o", JobIdFormat]
    ensures IsTruthy(state) ==> argv[6..] == ["-t", state.value]
    ensures ParseSqueue(argv) ==
      Some(SqueueQuery(true, if IsTruthy(state) then state else None, Some(jobName), Some(JobIdFormat)))
  {
    var base := ["squeue", "-h", "-n", jobName, "-o", JobIdFormat];
    var argv := if IsTruthy(state) then base + ["-t", state.value] else base;
    var q1 := Unfiltered.(noHeader := true);
    var q2 := q1.(names := Some(jobName));
    var q3 := q2.(format := Some(JobIdFormat));
    assert argv[..6] == base;
    assert argv[1..][1..] == argv[2..];
    assert argv[2..][2..] == argv[4..];
    assert argv[4..][2..] == argv[6..];
    assert IsTruthy(state) ==> argv[6..][2..] == [];
    assert ParseSqueueOptions(argv[6..], q3) ==
      Some(if IsTruthy(state) then q3.(states := state) else q3);
    assert ParseSqueueOptions(argv[4..], q2) == ParseSqueueOptions(argv[6..], q3);
    assert ParseSqueueOptions(argv[2..], q1) == ParseSqueueOptions(argv[4..], q2);
    argv
  }

  /** `count_jobs(state)`: the number of lines `splitlines` finds in
      squeue's stdout, whatever its exit status; if squeue cannot be
      started the exception propagates. The state defaults to "RUNNING". */
  function CountJobs(run: Runner, state: string := DefaultState): (count: Result<nat>)
    ensures var o := run(CountJobsArgv(state));
      (count.Failed? <==> o.Raised?) && (o.Completed? ==> count == Ok(|SplitLines(o.stdout)|))
  {
    match run(CountJobsArgv(state))
    case Raised => Failed
    case Completed(_, out, _) => Ok(|SplitLines(out)|)
  }

  /** `count_jobs_by_name(job_name, state)`: builds the command line in
      place, then counts like `count_jobs`. The state defaults to `None`,
      which filters on the name alone. */
  method CountJobsByName(jobName: string, run: Runner, state: Option<string> := None)
    returns (count: Result<nat>)
    ensures var o := run(CountJobsByNameArgv(jobName, state));
      (count.Failed? <==> o.Raised?) && (o.Completed? ==> count == Ok(|SplitLines(o.stdout)|))
  {
    var cmd := ["squeue", "-h", "-n", jobName, "-o", "%i"];
    if IsTruthy(state) {
      cmd := cmd + ["-t", state.value];
    }
    var result := run(cmd);
    match result {
      case Raised =>
        count := Failed;
      case Completed(_, out, _) =>
        var jobs := SplitLines(out);
        count := Ok(|jobs|);
    }
  }

  /** When squeue prints one job id per line, `count_jobs` returns the
      number of ids: "123\n456\n789\n" gives 3 and "" gives 0. */
  lemma {:induction false} CountJobsCountsPrintedIds(state: string, run: Runner, ids: seq<string>)
    requires run(CountJobsArgv(state)).Completed?
    requires run(CountJobsArgv(state)).stdout == Terminated(ids)
    requires forall i :: 0 <= i < |ids| ==> NoBreaks(ids[i])
    ensures CountJobs(run, state) == Ok(|ids|)
  {
    SplitTerminated(ids);
  }

  /** The count as a number of terminators: every terminator ends one
      line ("\r\n" counting once), and a last line without one adds one. So
      empty lines inside the output count and a final terminator does not. */
  lemma CountJobsCountsTerminators(state: string, run: Runner)
    requires run(CountJobsArgv(state)).Completed?
    ensures var out := run(CountJobsArgv(state)).stdout;
      CountJobs(run, state) == Ok(TerminatorCount(out) + (if EndsUnterminated(out) then 1 else 0))
  {
    LineCount(run(CountJobsArgv(state)).stdout);
  }

  // ---------------------------------------------------------------------
  // view_queue and cancel_jobs_by_name
  // ---------------------------------------------------------------------

  /** `view_queue`: squeue without options, that is the whole queue in its
      default format; returns its stdout whatever the exit status. */
  function ViewQueue(run: Runner): (r: Result<string>)
    ensures (r.Failed? <==> run(["squeue"]).Raised?) &&
      (run(["squeue"]).Completed? ==> r == Ok(run(["squeue"]).stdout))
  {
    StdoutOf(run(["squeue"]))
  }

  /** `cancel_jobs_by_name`: scancel with the name filter, the name passed
      as one element; returns its stdout whatever the exit status. */
  function CancelJobsByName(jobName: string, run: Runner): (r: Result<string>)
    ensures var o := run(["scancel", "--name", jobName]);
      (r.Failed? <==> o.Raised?) && (o.Completed? ==> r == Ok(o.stdout))
  {
    StdoutOf(run(["scancel", "--name", jobName]))
  }

  // ---------------------------------------------------------------------
  // is_slurm_available
  // ---------------------------------------------------------------------

  const VersionArgv := ["sbatch", "--version"]

  /** `is_slurm_available`: runs `sbatch --version` with `check=True`
      inside a catch-all. True exactly when the call completes with exit
      status 0 and "sbatch" occurs in its stdout; a call that raises and a
      non-zero exit status both give false. */
  function IsSlurmAvailable(run: Runner): (available: bool)
    ensures var o := run(VersionArgv);
      available <==> o.Completed? && o.exitCode == 0 && exists i :: OccursAt("sbatch", o.stdout, i)
  {
    match Checked(run(VersionArgv))
    case Raised => false
    case Completed(_, out, _) =>
      ContainsIffOccurs(out, "sbatch");
      Contains(out, "sbatch")
  }
}
