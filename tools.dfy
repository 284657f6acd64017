/**
 * shex/tools.py: running one shell command for the model and describing the
 * host. The child process is not modelled; what it did is given as a
 * `ProcessOutcome`, and `ExecuteCommand` assembles the result record from it.
 */
module Tools {
  import opened Wrappers
  import opened Text

  /**
   * What happened to the spawned shell, as far as `execute_command` can
   * observe it. The pipes are opened in text mode, so pipe text here is what
   * `read(1)` yields: already decoded, with `"\r\n"` and a lone `'\r'` read as
   * `'\n'`.
   */
  datatype ProcessOutcome =
    | Exited(returnCode: int, stdoutPipe: string, stderrPipe: string)
      // `process.wait` returned; `read(1)` on the two pipes yielded this text until EOF
    | TimedOut(stdoutSoFar: string)
      // `process.wait` raised TimeoutExpired; the stdout reader had read this much text
    | Raised(message: string)
      // an exception escaped (spawn failure and the like); `str(e)` is `message`

  /** The dict `execute_command` returns: always the same four keys. */
  datatype CommandResult = CommandResult(success: bool, output: string, error: string, returnCode: int)

  const DeclinedCode := -1
  const TimeoutCode := -2
  const FaultCode := -3

  /** Error text when the user rejects a dangerous command. */
  const DeclinedError := "用户取消执行危险命令"

  /** Error text on timeout: it names the limit in seconds. */
  function TimeoutError(timeout: int): string {
    "命令执行超时（" + IntToString(timeout) + "秒）"
  }

  /**
   * Whether the process is spawned at all: a confirmation callback is
   * consulted only for a dangerous command, and only when one is given.
   */
  predicate Proceeds(command: string, isDangerous: bool, confirm: Option<string -> bool>) {
    !(isDangerous && confirm.Some?) || confirm.value(command)
  }

  /**
   * The result `execute_command` returns for a command whose process, once
   * spawned, ends as `outcome`.
   */
  function CommandResultFor(command: string, isDangerous: bool, timeout: int,
                            confirm: Option<string -> bool>, outcome: ProcessOutcome): (r: CommandResult)
    ensures !Proceeds(command, isDangerous, confirm) ==>
              r == CommandResult(false, "", DeclinedError, DeclinedCode)
    ensures Proceeds(command, isDangerous, confirm) && outcome.Exited? ==>
              r.success == (outcome.returnCode == 0) && r.returnCode == outcome.returnCode
              && r.output == outcome.stdoutPipe && r.error == outcome.stderrPipe
    ensures Proceeds(command, isDangerous, confirm) && outcome.TimedOut? ==>
              r == CommandResult(false, outcome.stdoutSoFar, TimeoutError(timeout), TimeoutCode)
    ensures Proceeds(command, isDangerous, confirm) && outcome.Raised? ==>
              r == CommandResult(false, "", outcome.message, FaultCode)
    ensures r.success ==> r.returnCode == 0
  {
    if !Proceeds(command, isDangerous, confirm) then
      CommandResult(false, "", DeclinedError, DeclinedCode)
    else
      match outcome
      case Exited(code, out, err) => CommandResult(code == 0, out, err, code)
      case TimedOut(out) => CommandResult(false, out, TimeoutError(timeout), TimeoutCode)
      case Raised(msg) => CommandResult(false, "", msg, FaultCode)
  }

  /**
   * A reader thread (`read_stdout` / `read_stderr`): read one character at a
   * time until EOF, appending each to the list and echoing it to the terminal.
   */
  method ReadPipe(pipe: string) returns (data: seq<string>, echoed: string)
    ensures |data| == |pipe|
    ensures forall k :: 0 <= k < |data| ==> data[k] == [pipe[k]]
    ensures Concat(data) == pipe && echoed == pipe
  {
    data, echoed := [], "";
    var pos := 0;
    while true
      invariant 0 <= pos <= |pipe|
      invariant |data| == pos
      invariant forall k :: 0 <= k < pos ==> data[k] == [pipe[k]]
      invariant Concat(data) == pipe[..pos] && echoed == pipe[..pos]
      decreases |pipe| - pos
    {
      var ch := if pos < |pipe| then [pipe[pos]] else "";  // process.stdout.read(1)
      if ch == "" {
        break;
      }
      assert (data + [ch])[..|data|] == data;
      assert pipe[..pos + 1] == pipe[..pos] + ch;
      data := data + [ch];
      echoed := echoed + ch;
      pos := pos + 1;
    }
    assert pipe[..pos] == pipe;
  }

  /**
   * `execute_command`: decline without spawning, or spawn, drain both pipes
   * and build the result from how the process ended. `spawned` says whether
   * `subprocess.Popen` was reached.
   */
  method ExecuteCommand(command: string, isDangerous: bool, timeout: int,
                        confirm: Option<string -> bool>, outcome: ProcessOutcome)
    returns (r: CommandResult, spawned: bool)
    ensures spawned == Proceeds(command, isDangerous, confirm)
    ensures r == CommandResultFor(command, isDangerous, timeout, confirm, outcome)
  {
    if isDangerous && confirm.Some? {
      if !confirm.value(command) {
        return CommandResult(false, "", DeclinedError, DeclinedCode), false;
      }
    }
    spawned := true;
    match outcome {
      case Exited(code, out, err) =>
        var stdoutData, _ := ReadPipe(out);
        var stderrData, _ := ReadPipe(err);
        r := CommandResult(code == 0, Concat(stdoutData), Concat(stderrData), code);
      case TimedOut(partial) =>
        var stdoutData, _ := ReadPipe(partial);
        r := CommandResult(false, Concat(stdoutData), TimeoutError(timeout), TimeoutCode);
      case Raised(msg) =>
        r := CommandResult(false, "", msg, FaultCode);
    }
  }

  /** A declined command's result does not depend on what the process would have done. */
  lemma DeclinedIgnoresOutcome(command: string, isDangerous: bool, timeout: int,
                               confirm: Option<string -> bool>, o1: ProcessOutcome, o2: ProcessOutcome)
    requires !Proceeds(command, isDangerous, confirm)
    ensures CommandResultFor(command, isDangerous, timeout, confirm, o1)
         == CommandResultFor(command, isDangerous, timeout, confirm, o2)
    ensures isDangerous && confirm.Some? && !confirm.value(command)
  {
  }

  /** What `get_system_info` reads from the `platform` and `os` modules. */
  datatype Platform = Platform(system: string, version: string, architecture: string,
                               machine: string, cwd: string)

  /** `os.getenv(name)`: `None` when the variable is unset. */
  function GetEnv(env: map<string, string>, name: string): Option<string> {
    if name in env then Some(env[name]) else None
  }

  /** `os.getenv(first) or os.getenv(second, "unknown")`. */
  function EnvFallback(env: map<string, string>, first: string, second: string): (v: string)
    ensures first in env && env[first] != "" ==> v == env[first]
    ensures (first !in env || env[first] == "") && second in env ==> v == env[second]
    ensures (first !in env || env[first] == "") && second !in env ==> v == "unknown"
  {
    var a := GetEnv(env, first);
    if a.Some? && a.value != "" then a.value else GetEnv(env, second).GetOr("unknown")
  }

  const InfoKeys: seq<string> := ["os", "os_version", "architecture", "machine", "cwd", "user", "shell"]

  /** The `info` dict of `get_system_info`, values in key order. */
  function InfoValues(p: Platform, env: map<string, string>): (vs: seq<string>)
    ensures |vs| == |InfoKeys|
  {
    [p.system, p.version, p.architecture, p.machine, p.cwd,
     EnvFallback(env, "USERNAME", "USER"), EnvFallback(env, "SHELL", "COMSPEC")]
  }

  function InfoLine(key: string, value: string): string {
    "- " + key + ": " + value
  }

  /** The lines `- k: v` of `get_system_info`, one per key in order. */
  function InfoLines(p: Platform, env: map<string, string>): (lines: seq<string>)
    ensures |lines| == 7
  {
    var vs := InfoValues(p, env);
    seq(7, k requires 0 <= k < 7 => InfoLine(InfoKeys[k], vs[k]))
  }

  /** `get_system_info()`: the info lines joined by newlines. */
  function GetSystemInfo(p: Platform, env: map<string, string>): string {
    Join(InfoLines(p, env), '\n')
  }

  /**
   * When no value contains a newline, the text splits back into exactly
   * seven lines, the k-th being `- <k-th key>: <k-th value>`.
   */
  lemma SystemInfoLines(p: Platform, env: map<string, string>)
    requires forall v :: v in InfoValues(p, env) ==> '\n' !in v
    ensures var lines := Split(GetSystemInfo(p, env), '\n');
            |lines| == 7 &&
            forall k :: 0 <= k < 7 ==> lines[k] == InfoLine(InfoKeys[k], InfoValues(p, env)[k])
  {
    var lines := InfoLines(p, env);
    var vs := InfoValues(p, env);
    forall k | 0 <= k < 7
      ensures '\n' !in lines[k]
    {
      assert vs[k] in vs;
      assert lines[k] == "- " + InfoKeys[k] + ": " + vs[k];
    }
    SplitJoin(lines, '\n');
  }

  /** JSON-schema type of a tool parameter. */
  datatype ParamType = StringParam | BooleanParam

  datatype Param = Param(name: string, kind: ParamType)

  /** A function-calling tool definition as listed in `TOOLS`. */
  datatype ToolSchema = ToolSchema(name: string, properties: seq<Param>, required: seq<string>)

  const ExecuteCommandTool := ToolSchema(
    "execute_command",
    [Param("command", StringParam), Param("explanation", StringParam), Param("is_dangerous", BooleanParam)],
    ["command", "explanation", "is_dangerous"])

  /** `TOOLS`: the one tool the model may call. */
  const ToolList: seq<ToolSchema> := [ExecuteCommandTool]

  /** The names of a schema's declared properties, in order. */
  function PropertyNames(t: ToolSchema): (names: seq<string>)
    ensures |names| == |t.properties|
    ensures forall k :: 0 <= k < |names| ==> names[k] == t.properties[k].name
  {
    seq(|t.properties|, k requires 0 <= k < |t.properties| => t.properties[k].name)
  }

  /**
   * `execute_command` requires exactly its three declared properties, the
   * flag is a boolean and the other two are strings.
   */
  lemma ExecuteCommandSchema()
    ensures ToolList == [ExecuteCommandTool]
    ensures ExecuteCommandTool.required == PropertyNames(ExecuteCommandTool)
    ensures ExecuteCommandTool.required == ["command", "explanation", "is_dangerous"]
    ensures forall p :: p in ExecuteCommandTool.properties ==>
              (p.kind == BooleanParam <==> p.name == "is_dangerous")
  {
  }
}
