/**
 * Running one backend command: the command line handed to the process, and
 * the classification of what the process did into the dict the dashboard
 * renders. Spawning, the 30-second timeout and stream capture are outside the
 * model; their observable result is an `Outcome`.
 */
module Invoker {
  import opened Wrappers
  import opened JsonValue
  import opened Locator

  const Interpreter := "node"
  const JsonFlag: seq<string> := ["-f", "json"]
  /** How much of standard output a parse-failure message quotes. */
  const ExcerptLength := 200

  /** What one invocation ended with. */
  datatype Outcome =
    | TimedOut                                          // subprocess.TimeoutExpired
    | Raised(message: string)                           // any other exception, as str(e)
    | Exited(code: int, stdout: string, stderr: string) // the process finished

  /** The two shapes of result dict the dashboard builds. */
  datatype Reply = Failed(message: string) | Succeeded(data: Json)

  /** The command line: interpreter, CLI script, the arguments, and `-f json` last when JSON output is wanted. */
  function Command(cliPath: string, args: seq<string>, useJson: bool): (cmd: seq<string>)
    ensures |cmd| == 2 + |args| + (if useJson then |JsonFlag| else 0)
    ensures cmd[..2] == [Interpreter, cliPath]
    ensures cmd[2..2 + |args|] == args
    ensures useJson ==> cmd[|cmd| - 2..] == JsonFlag
  {
    [Interpreter, cliPath] + args + (if useJson then JsonFlag else [])
  }

  /** The first 200 characters of the output, or all of it when shorter. */
  function Excerpt(s: string): (r: string)
    ensures |r| == if |s| < ExcerptLength then |s| else ExcerptLength
    ensures r <= s
  {
    if |s| <= ExcerptLength then s else s[..ExcerptLength]
  }

  /** The dict `_run_cli_command` returns after the process has been run. */
  function Classify(outcome: Outcome, useJson: bool, lib: Library): (r: Reply)
    ensures outcome.TimedOut? ==> r == Failed("Command timed out")
    ensures outcome.Raised? ==> r == Failed(outcome.message)
    ensures outcome.Exited? && outcome.code != 0 ==>
              r == Failed(if outcome.stderr == "" then "Command failed" else outcome.stderr)
    ensures r.Succeeded? <==>
              outcome.Exited? && outcome.code == 0 && (useJson ==> lib.loads(outcome.stdout).Success?)
    ensures r.Succeeded? && useJson ==> r.data == lib.loads(outcome.stdout).value
    ensures r.Succeeded? && !useJson ==> r.data == Object([("output", Str(outcome.stdout))])
    ensures outcome.Exited? && outcome.code == 0 && useJson && lib.loads(outcome.stdout).Failure? ==>
              r == match lib.loads(outcome.stdout).error
                   case DecodeError(e) => Failed("Failed to parse JSON: " + e + "\nOutput: " + Excerpt(outcome.stdout))
                   case OtherError(e) => Failed(e)
  {
    match outcome
    case TimedOut => Failed("Command timed out")
    case Raised(message) => Failed(message)
    case Exited(code, stdout, stderr) =>
      if code != 0 then Failed(if stderr == "" then "Command failed" else stderr)
      else if useJson then
        match lib.loads(stdout)
        case Success(parsed) => Succeeded(parsed)
        case Failure(DecodeError(e)) => Failed("Failed to parse JSON: " + e + "\nOutput: " + Excerpt(stdout))
        case Failure(OtherError(e)) => Failed(e)
      else Succeeded(Object([("output", Str(stdout))]))
  }

  /** A successful exit whose output does not decode reports the decoder's message and the first 200 characters of the output (all of it when shorter). */
  lemma ParseFailureMessage(stdout: string, stderr: string, lib: Library, e: string)
    requires lib.loads(stdout) == Failure(DecodeError(e))
    ensures var r := Classify(Exited(0, stdout, stderr), true, lib);
            var head := "Failed to parse JSON: " + e + "\nOutput: ";
            && r == Failed(head + Excerpt(stdout))
            && |head| <= |r.message| <= |head| + ExcerptLength
            && r.message[..|head|] == head
  {
  }

  /** When no candidate script exists, the command line starts `node cozo-memory`. */
  lemma FallbackRunsThroughNode(candidates: seq<string>, present: string -> bool, args: seq<string>, useJson: bool)
    requires forall i :: 0 <= i < |candidates| ==> !present(candidates[i])
    ensures Command(Locate(candidates, present), args, useJson)[..2] == [Interpreter, Fallback]
  {
    LocateFallback(candidates, present);
  }

  /** Without JSON output, a successful exit never consults the decoder: the raw output is carried as it is. */
  lemma RawOutputIgnoresDecoder(stdout: string, stderr: string, lib: Library, other: Library)
    ensures Classify(Exited(0, stdout, stderr), false, lib) == Classify(Exited(0, stdout, stderr), false, other)
  {
  }

  /** The Python dict for a reply: `{"error": m}` or `{"success": True, "data": d}`. */
  function AsDict(reply: Reply): (d: Json)
    ensures d.Object?
    ensures reply.Failed? ==> Lookup(d.members, "error") == Some(Str(reply.message))
    ensures reply.Succeeded? ==>
              && Lookup(d.members, "error").None?
              && Lookup(d.members, "success") == Some(Bool(true))
              && Lookup(d.members, "data") == Some(reply.data)
  {
    match reply
    case Failed(m) => Object([("error", Str(m))])
    case Succeeded(data) => Object([("success", Bool(true)), ("data", data)])
  }
}
