/** The root strategy: runs the escaped command line in a root shell and reads its exit code. */
module RootLaunch {
  import opened Outcomes
  import opened Text
  import opened Intents
  import opened CommandLaunch

  /** What the root shell reports for one command: its exit code and the lines it wrote to stderr. */
  datatype ShellResult = ShellResult(exitCode: int, stderr: seq<string>)

  /** `RootLaunchStrategy.tryLaunch`: builds the command from the escaped base command of the
      backend and the request, runs it through `shell`, and turns a non-zero exit code into one
      exception carrying the stderr lines joined by newlines. No `try` surrounds the shell call,
      so what it throws leaves `tryLaunch`. */
  method TryLaunch(base: string, args: LaunchArgs, shell: string -> Call<ShellResult>)
    returns (command: string, r: LaunchResult)
    ensures command == RootCommand(base, args)
    ensures shell(command).Throws? ==> r == Raised(shell(command).cause)
    ensures shell(command).Returns? ==>
      r.Returned? && (r.errors == [] <==> shell(command).value.exitCode == 0)
    ensures shell(command).Returns? && shell(command).value.exitCode != 0 ==>
      r.errors == [Failure(JoinLines(shell(command).value.stderr))]
  {
    command := AddToCommand(args, Escape(base));
    match shell(command)
    case Throws(e) =>
      r := Raised(e);
    case Returns(result) =>
      if result.exitCode == 0 {
        r := Returned([]);
      } else {
        r := Returned([Failure(JoinLines(result.stderr))]);
      }
  }
}
