/**
 * The result-shaping part of `ShellTester.runCommand`: what the harness
 * makes of one run of a shell. Launching the process, writing its input
 * and waiting for it are operating-system work; the model receives their
 * outcome as a value of type Process from an abstract Shell function.
 */
module Shell {
  import opened Trim

  /** How `cmd.Wait` returned. */
  datatype WaitResult =
    | Exited                      // nil: the process exited with status 0
    | ExitError(exitCode: int)    // an *exec.ExitError, whose ExitCode() is given
    | WaitFailed(message: string) // any other error, e.g. copying the output failed

  /** What happened when a shell was run with some standard input. */
  datatype Process =
    | PipeFailed(message: string)   // cmd.StdinPipe failed
    | StartFailed(message: string)  // cmd.Start failed
    | WriteFailed(message: string)  // writing the command to stdin failed
    | Finished(stdout: string, stderr: string, wait: WaitResult)

  /** The shells as the harness sees them: the executable path and the text
      written to its standard input determine what happens. */
  type Shell = (string, string) -> Process

  /** The triple `runCommand` returns. */
  datatype Captured = Captured(stdout: string, stderr: string, code: int)

  /** The exit code used when the shell could not be launched or fed. */
  const LaunchFailureCode: int := 1

  predicate LaunchFailed(p: Process) {
    p.PipeFailed? || p.StartFailed? || p.WriteFailed?
  }

  /** The text fed to the shell: the command, a newline and an `exit`
      line, so that an interactive shell terminates. */
  function Stdin(command: string): string {
    command + "\nexit\n"
  }

  /** The exit code the harness reads from `cmd.Wait`. */
  function ExitCodeOf(w: WaitResult): int {
    match w
    case Exited => 0
    case ExitError(c) => c
    case WaitFailed(_) => 0
  }

  /** `runCommand` once the process outcome is known. */
  function Capture(p: Process): Captured {
    match p
    case PipeFailed(m) => Captured("", m, LaunchFailureCode)
    case StartFailed(m) => Captured("", m, LaunchFailureCode)
    case WriteFailed(m) => Captured("", m, LaunchFailureCode)
    case Finished(out, err, w) => Captured(TrimSpace(out), TrimSpace(err), ExitCodeOf(w))
  }

  /** On a launch failure the result is the sentinel: empty output, the
      error text, code 1. Otherwise both streams are trimmed and the code is
      the ExitError's code, or 0 when Wait returned nil or another error.
      In every case the output is trimmed. */
  lemma CaptureShape(p: Process)
    ensures var r := Capture(p);
            && IsTrimmed(r.stdout)
            && (LaunchFailed(p) ==> r == Captured("", p.message, LaunchFailureCode))
            && (p.Finished? ==>
                  && r.stdout == TrimSpace(p.stdout)
                  && r.stderr == TrimSpace(p.stderr)
                  && IsTrimmed(r.stderr)
                  && r.code == (if p.wait.ExitError? then p.wait.exitCode else 0))
  {
    if p.Finished? {
      TrimSpaceSpec(p.stdout);
      TrimSpaceSpec(p.stderr);
    }
  }

  /** `runCommand(shellPath, command)`: run the shell on the command and
      shape what happened. */
  function RunCommand(run: Shell, shellPath: string, command: string): Captured
  {
    Capture(run(shellPath, Stdin(command)))
  }

  /** Running a command never yields output with leading or trailing white
      space, and a finished run's error text neither; trimming it again
      changes nothing. */
  lemma RunCommandTrimmed(run: Shell, shellPath: string, command: string)
    ensures var r := RunCommand(run, shellPath, command);
            TrimSpace(r.stdout) == r.stdout
            && (run(shellPath, Stdin(command)).Finished? ==> TrimSpace(r.stderr) == r.stderr)
  {
    var p := run(shellPath, Stdin(command));
    if p.Finished? {
      TrimSpaceIdempotent(p.stdout);
      TrimSpaceIdempotent(p.stderr);
    } else {
      TrimSpaceDropsTrailing([], []);
    }
  }
}
