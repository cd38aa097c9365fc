/** What the manager sees of `subprocess.run(argv, capture_output=True,
    text=True)`: the external command itself is not modelled, only what the
    call hands back. A caller supplies the run as a function of argv. */
module Process {

  /** The result of one `subprocess.run` call. `Raised` stands for every
      exception the call raises itself: the executable is missing or cannot
      be started, or its output cannot be decoded as text. */
  datatype Outcome =
    | Raised
    | Completed(exitCode: int, stdout: string, stderr: string)

  /** Runs a command line, given as its argument vector. */
  type Runner = seq<string> -> Outcome

  /** What a manager operation returns: its value, or the exception
      `subprocess.run` raised, which the operation lets propagate. */
  datatype Result<T> = Ok(value: T) | Failed

  /** `subprocess.run(..., check=True)`: a non-zero exit status is raised as
      `CalledProcessError`; a zero exit status leaves the outcome as it is. */
  function Checked(o: Outcome): (c: Outcome)
    ensures c.Completed? <==> o.Completed? && o.exitCode == 0
    ensures c.Completed? ==> c == o
  {
    if o.Completed? && o.exitCode != 0 then Raised else o
  }

  /** The stdout of a call whose exit status and stderr are ignored, as every
      operation of the manager except the availability probe does. */
  function StdoutOf(o: Outcome): (r: Result<string>)
    ensures r.Failed? <==> o.Raised?
    ensures o.Completed? ==> r == Ok(o.stdout)
  {
    match o
    case Raised => Failed
    case Completed(_, out, _) => Ok(out)
  }
}
